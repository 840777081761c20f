# PayWise front-end core, modelled in Dafny

PayWise is a demonstration front-end for a peer-to-peer payment app. All of
its data is in memory. This project models the four parts of it that hold
logic, and proves what each part promises:

- **Transaction data source** (`transactions.dfy`, module `TransactionData`).
  It holds the eight mock transactions and the shared mutable array
  `mockTransactions`. `getRecentTransactions` sorts that array in place,
  newest first, and returns the first three. `getAllTransactions` returns the
  array itself. The sort is specified by a stable insertion sort
  `SortNewestFirst`, because ECMAScript's `Array.prototype.sort` is stable.
  The in-place insertion sort `SortInPlace` is proved to leave exactly that
  result in the array.
- **History view** (`history.dfy`, module `HistoryView`). The filter state has
  four axes: direction, status, date range and category. The filter effect
  narrows the loaded list stage by stage, searches five text fields and
  sorts the result in place. Two summary cards add up the completed incoming
  and completed outgoing amounts. The page state is a class whose handlers
  re-run the effect. When no stage applies, the effect sorts the loaded array
  itself, which is the data source's shared array. The model keeps that
  aliasing.
- **Transfer wizard** (`transfer.dfy`, module `TransferWizard`). A
  three-step draft (recipient → amount → confirm). Its handlers validate each
  step, record errors scoped to a field, and move between steps. A
  successful submission resets the draft.
- **Transaction detail** (`detail.dfy`, module `TransactionDetail`). It looks
  up the page's own three-record table by id, with an explicit not-found
  outcome, and decides what the fee row renders.

`option.dfy` holds the shared `Option` datatype.

Inputs from the environment become parameters:

- `parse: string -> Option<real>` stands for `parseFloat`, with `None` for NaN.
- `lower: string -> string` stands for `toLowerCase`.
- `day: int -> int` stands for the calendar day that `Date.toDateString` names.
- `now: int` is the current time in milliseconds.
- `fails` / `succeeds: bool` stand for the outcome of `Math.random()`.

Three facts about the code that a reader might not expect:

- The records are never edited, but the shared array holding them is
  sorted in place. `getRecentTransactions` always sorts it
  (`src/data/transactions.ts:126`). The history page sorts it only when no
  filter stage applies: the effect starts from the loaded array itself
  (`src/pages/History.tsx:54`) and sorts whatever array it ends with
  (`src/pages/History.tsx:102`). With any filter active, it sorts a new
  array and leaves the shared one alone. `getAllTransactions` returns the
  sorted array once either sort has run.
- The transfer wizard clears its errors in an effect keyed on `step`
  (`src/pages/Transfer.tsx:37-39`), so errors clear only when the step value
  actually changes (`TransferDraft.SetStep`).
- The detail page does not use the shared list. It has its own
  three-record table (`src/pages/TransactionDetail.tsx:23-69`), and in it
  TXN003 has a fee of 5.

## Model

| member | source | states |
|---|---|---|
| TransactionData.MockTransactions | src/data/transactions.ts:16-121 | the eight mock records; their properties are stated by MockWellFormed, MockUniqueIds, MockIsNewestFirst and HistoryView.MockLedger |
| TransactionData.MockWellFormed | src/data/transactions.ts:16-121 | the table has eight records; each names exactly the counterparty its direction needs and has a positive amount |
| TransactionData.MockUniqueIds | src/data/transactions.ts:16-121 | no two records of the table share an id |
| TransactionData.MockIsNewestFirst | src/data/transactions.ts:16-121 | the table is declared in non-increasing timestamp order |
| TransactionData.InsertNewest | src/data/transactions.ts:126 | one step of the stable insertion sort; its properties are stated by InsertNewestPermutes, InsertNewestKeepsOrder, InsertNewestAt and HistoryView.InsertNewestKeepsTies |
| TransactionData.SortNewestFirst | src/data/transactions.ts:126 | the reference stable newest-first sort; its properties are stated by the SortNewestFirst lemmas and HistoryView.SortNewestFirstStable |
| TransactionData.InsertNewestPermutes | src/data/transactions.ts:126 | one insertion step adds exactly the inserted record to the multiset |
| TransactionData.InsertNewestKeepsOrder | src/data/transactions.ts:126 | inserting into a newest-first list keeps it newest first |
| TransactionData.SortNewestFirstPermutes | src/data/transactions.ts:126 | the sort result is a permutation of its input |
| TransactionData.SortNewestFirstOrders | src/data/transactions.ts:126 | the sort result is non-increasing by timestamp |
| TransactionData.SortNewestFirstFixesSorted | src/data/transactions.ts:126 | sorting a list that is already newest first returns it unchanged |
| TransactionData.SortNewestFirstIdempotent | src/data/transactions.ts:126 | sorting twice gives the same result as sorting once |
| TransactionData.SortNewestFirstLength | src/data/transactions.ts:126 | the sort keeps the length |
| TransactionData.InsertNewestAt | src/data/transactions.ts:126 | the stable insertion puts the record right after the last element that is not older than it |
| TransactionData.InsertInPlace | src/data/transactions.ts:126 | one pass over the array leaves the prefix equal to the specified stable insertion and the rest untouched |
| TransactionData.SortInPlace | src/data/transactions.ts:126 | the in-place sort leaves the array equal to the stable newest-first sort of its old contents |
| TransactionData.RecentOf | src/data/transactions.ts:124-128 | the recent list has three records, or all of them when the table is shorter |
| TransactionData.RecentIsLatest | src/data/transactions.ts:124-128 | the recent list is newest first, is a sub-multiset of the table, and no omitted record is later than a returned one |
| TransactionData.ShippedRecent | src/data/transactions.ts:16-128 | for the shipped table the recent three are TXN001, TXN002, TXN003 in that order |
| TransactionData.TransactionStore.constructor | src/data/transactions.ts:16-121 | the shared array is created holding the mock table |
| TransactionData.TransactionStore.GetRecentTransactions | src/data/transactions.ts:124-128 | the shared array becomes its own stable sort, and the result is the recent list of the old contents |
| TransactionData.TransactionStore.GetAllTransactions | src/data/transactions.ts:131-133 | returns the shared array itself, not a copy |
| TransactionData.RecentThenAll | src/data/transactions.ts:124-133 | after the recent call, the array that the all call returns is in sorted order and begins with the recent list |
| TransactionData.FirstRecentIds | src/data/transactions.ts:124-128 | a fresh store returns TXN001, TXN002, TXN003 as its recent transactions |
| HistoryView.Filter | src/pages/History.tsx:58 | `Array.prototype.filter`: keeps the passing records in order; its properties are stated by the Filter lemmas below |
| HistoryView.FilterCounts | src/pages/History.tsx:58 | filtering keeps every passing record with its multiplicity and drops every other record |
| HistoryView.FilterMembers | src/pages/History.tsx:58 | a record is in the filtered list iff it is in the input and passes |
| HistoryView.FilterKeepsNewestFirst | src/pages/History.tsx:58 | filtering a newest-first list keeps it newest first |
| HistoryView.FilterKeepsAll | src/pages/History.tsx:58 | a filter that every record passes changes nothing |
| HistoryView.FilterFuses | src/pages/History.tsx:56-64 | two filters in a row equal one filter by their conjunction |
| HistoryView.FilterCommutes | src/pages/History.tsx:56-64 | the order in which two filter stages run does not change the result |
| HistoryView.FilterIdempotent | src/pages/History.tsx:58 | filtering twice by one predicate equals filtering once |
| HistoryView.InsertNewestKeepsTies | src/data/transactions.ts:126 | one insertion step keeps the records of every timestamp in their order, and adds the inserted record last among its timestamp |
| HistoryView.SortNewestFirstStable | src/data/transactions.ts:126 | the sort is stable: for every timestamp, the records with that timestamp appear in the same order as in the input |
| HistoryView.InDateRange | src/pages/History.tsx:71-87 | the date stage's test: same calendar day for 'today', the last 7 or 30 days for 'week' and 'month', every record for 'all' and 'custom'; stated for the list by DateStage |
| HistoryView.MatchesQuery | src/pages/History.tsx:89-99 | the search stage's test over five lowercased fields; stated for the list by SearchStage and QueryIgnoresAbsentFields |
| HistoryView.Pipeline | src/pages/History.tsx:52-105 | the reference definition of the effect, filter then stable sort; its properties are stated by the Pipeline lemmas and ApplyFilters |
| HistoryView.PipelineCounts | src/pages/History.tsx:52-105 | the displayed list is a permutation of exactly the loaded records that pass every stage |
| HistoryView.PipelineMembers | src/pages/History.tsx:52-105 | a record is displayed iff it is loaded and passes type, status, category, date and search |
| HistoryView.PipelineNewestFirst | src/pages/History.tsx:101-102 | the displayed list is non-increasing by timestamp |
| HistoryView.PipelineIdempotent | src/pages/History.tsx:52-105 | applying the same filters and query to the displayed list gives the same list again |
| HistoryView.PipelineWithoutFilters | src/pages/History.tsx:52-105 | with every axis at 'all' and an empty query, the effect only sorts |
| HistoryView.QueryIgnoresAbsentFields | src/pages/History.tsx:89-99 | with a non-empty query, a record with no optional text field matches only through its PayTag |
| HistoryView.TypeStage | src/pages/History.tsx:56-59 | narrows to the chosen direction into a new array, or passes the same array on for 'all' |
| HistoryView.StatusStage | src/pages/History.tsx:61-64 | narrows to the chosen status into a new array, or passes the same array on for 'all' |
| HistoryView.CategoryStage | src/pages/History.tsx:66-69 | narrows to records whose category string equals the option into a new array, or passes the same array on for 'all' |
| HistoryView.DateStage | src/pages/History.tsx:71-87 | 'today' keeps the same calendar day, 'week' and 'month' keep the last 7 or 30 days; 'all' and 'custom' pass the same array on |
| HistoryView.SearchStage | src/pages/History.tsx:89-99 | a non-empty query keeps records whose recipient, sender, PayTag, memo or reference contains it after lowercasing; an empty one passes the same array on |
| HistoryView.StagesCompose | src/pages/History.tsx:52-99 | the five stages in sequence keep exactly what one filter by the conjunction keeps |
| HistoryView.ApplyFilters | src/pages/History.tsx:52-105 | the result is the reference pipeline of the old loaded list; when no stage applies it is the loaded array itself, which is then sorted in place, and otherwise the loaded array is unchanged |
| HistoryView.IncomingTotal | src/pages/History.tsx:341-344 | the money-in card equals the running sum of the completed incoming amounts |
| HistoryView.OutgoingTotal | src/pages/History.tsx:360-363 | the money-out card equals the running sum of the completed outgoing amounts |
| HistoryView.SumAmountsAppend | src/pages/History.tsx:343 | the sum over a concatenation is the sum of the two sums |
| HistoryView.SumAmountsRemove | src/pages/History.tsx:343 | removing one record from a list lowers its sum by exactly that record's amount |
| HistoryView.SumAmountsPermutation | src/pages/History.tsx:343 | lists with the same records in any order have the same sum |
| HistoryView.SortKeepsTotal | src/pages/History.tsx:341-344 | a card total does not change when the list is sorted |
| HistoryView.TotalsOverPassing | src/pages/History.tsx:341-363 | each card equals the sum of amount over exactly the completed records of its direction that pass the filters |
| HistoryView.TotalOfExcludedDirection | src/pages/History.tsx:341-363 | a list of outgoing records only has a zero money-in card, and a list of incoming records only has a zero money-out card |
| HistoryView.FilteredSumIsSumWhere | src/pages/History.tsx:341-344 | filter-then-reduce equals the running sum over the accepted records |
| HistoryView.MockLedger | src/data/transactions.ts:16-121 | the direction, status and amount of each shipped record |
| HistoryView.LedgerIncoming | src/pages/History.tsx:341-344 | eight records shaped like the shipped table give a money-in card of 26200 |
| HistoryView.LedgerOutgoing | src/pages/History.tsx:360-363 | eight records shaped like the shipped table give a money-out card of 5430 |
| HistoryView.ShippedTotals | src/pages/History.tsx:341-363 | with no filters, the shipped table shows 26200 in and 5430 out |
| HistoryView.TwoRecordTotals | src/pages/History.tsx:341-363 | a completed outgoing 500 and a completed incoming 1200, in either order of time, with no filters show 1200 in and 500 out |
| HistoryView.HistoryPage.constructor | src/pages/History.tsx:12-23 | the page starts with an empty loaded list that is also the displayed list, empty query, all filters at 'all', loading and no error |
| HistoryView.HistoryPage.RefreshFiltered | src/pages/History.tsx:52-105 | the displayed list becomes the pipeline of the loaded list; when no stage applies it is the loaded array itself, sorted in place, and otherwise a new array with the loaded one unchanged |
| HistoryView.HistoryPage.Load | src/pages/History.tsx:27-50 | a failed load sets the load error and keeps the lists and the shared array; a successful one holds the store's shared array and clears the error; if that array is new to the page the effect re-runs, sorting the shared array in place and displaying it when no stage applies and leaving it unchanged otherwise; if it is the array already held nothing else changes |
| HistoryView.HistoryPage.SetSearchQuery | src/pages/History.tsx:228 | a new query re-runs the effect with it, sorting the loaded array in place and displaying it when no stage applies and leaving it unchanged otherwise; an unchanged query leaves both lists as they are |
| HistoryView.HistoryPage.SetFilters | src/pages/History.tsx:247-288 | the new filter state is stored and the effect re-runs with it, keeping the query; the loaded array is sorted in place and displayed when no stage applies, and unchanged otherwise |
| HistoryView.HistoryPage.ClearFilters | src/pages/History.tsx:304-309 | every axis returns to 'all', the query is kept, and the effect re-runs; with an empty query the loaded array is sorted in place and displayed, otherwise it is unchanged |
| TransferWizard.RecentContacts | src/pages/Transfer.tsx:28-33 | the four recipient shortcuts; that all of them validate is stated by ContactsCanAdvance |
| TransferWizard.ValidateAmount | src/pages/Transfer.tsx:46-49 | an amount is valid iff it parses to a number in (0, 50000]; stated through AmountErrors and AmountExamples |
| TransferWizard.MatchTagRun | src/pages/Transfer.tsx:42 | the character run matches iff its length is within the bounds and every character is in [a-zA-Z0-9_] |
| TransferWizard.ValidatePayTag | src/pages/Transfer.tsx:41-44 | a tag is accepted iff it is '@' followed by 3 to 20 characters from [a-zA-Z0-9_], so 4 to 21 characters in all |
| TransferWizard.PayTagExamples | src/pages/Transfer.tsx:41-44 | @somchai123 and @abc are accepted; @ab, so@mchai, a 21-character run and @ab-c are rejected |
| TransferWizard.RecipientErrors | src/pages/Transfer.tsx:51-60 | at most one error; a recipient error iff no contact and no tag; a PayTag error iff a non-empty tag fails validation; none iff the step may advance |
| TransferWizard.AmountErrors | src/pages/Transfer.tsx:70-77 | at most one amount error: 'required' for an empty input, 'range' for a value that does not parse or lies outside (0, 50000] |
| TransferWizard.PinErrors | src/pages/Transfer.tsx:90-92 | no error iff the PIN has exactly six characters, otherwise the one PIN error |
| TransferWizard.PinExamples | src/pages/Transfer.tsx:90-92 | "12345" and "" are rejected; "123456" and "abcdef" are accepted because only the length is checked |
| TransferWizard.ContactsCanAdvance | src/pages/Transfer.tsx:28-33 | every built-in contact has a valid tag, so picking one produces no recipient errors |
| TransferWizard.AmountExamples | src/pages/Transfer.tsx:46-49 | with parseFloat's readings, "0", "-5", "50000.01" and "abc" give the range error, "" the required error, and "50000" passes |
| TransferWizard.TransferDraft.constructor | src/pages/Transfer.tsx:18-25 | the wizard starts at the recipient step with an empty draft and no errors |
| TransferWizard.TransferDraft.SetStep | src/pages/Transfer.tsx:37-39 | a change of step clears the errors; setting the same step keeps them |
| TransferWizard.TransferDraft.SelectContact | src/pages/Transfer.tsx:220-223 | picking a contact sets the recipient and copies its tag into the tag field |
| TransferWizard.TransferDraft.SetPayTag | src/pages/Transfer.tsx:198 | the tag field holds the typed value |
| TransferWizard.TransferDraft.SetAmount | src/pages/Transfer.tsx:282 | the amount field holds the typed value |
| TransferWizard.TransferDraft.SetMemo | src/pages/Transfer.tsx:313 | the memo field holds the typed value |
| TransferWizard.TransferDraft.SetPin | src/pages/Transfer.tsx:382 | the PIN field holds the typed value |
| TransferWizard.TransferDraft.HandleRecipientSubmit | src/pages/Transfer.tsx:51-68 | with errors, stores them and stays on the step; without errors, moves to the amount step |
| TransferWizard.TransferDraft.HandleAmountSubmit | src/pages/Transfer.tsx:70-85 | with an amount error, stores it and stays on the step; otherwise moves to the confirm step |
| TransferWizard.TransferDraft.HandleTransfer | src/pages/Transfer.tsx:87-124 | a wrong-length PIN sets the PIN error and changes nothing else; a failed call keeps the draft and sets the one insufficient-balance error; a success resets the draft to the recipient step with every field empty |
| TransferWizard.TransferDraft.BackToRecipient | src/pages/Transfer.tsx:322 | goes back to the recipient step without validation, clearing errors on a change of step |
| TransferWizard.TransferDraft.BackToAmount | src/pages/Transfer.tsx:391 | goes back to the amount step without validation, clearing errors on a change of step |
| TransferWizard.ContactThenNext | src/pages/Transfer.tsx:28-68 | picking any built-in contact and pressing next reaches the amount step with no errors |
| TransactionDetail.DetailTable | src/pages/TransactionDetail.tsx:23-69 | the page's three records; their properties are stated by DetailIdsDistinct, TableNamesCounterparty and OnlyFeeRowForTxn003 |
| TransactionDetail.GetTransactionById | src/pages/TransactionDetail.tsx:22-72 | the first-match lookup in the page's table; its outcome is stated by LookupSucceedsIff |
| TransactionDetail.FindById | src/pages/TransactionDetail.tsx:71 | nothing iff no record has the id; otherwise the first record with that id |
| TransactionDetail.DetailIdsDistinct | src/pages/TransactionDetail.tsx:23-69 | the page's three records have distinct ids |
| TransactionDetail.LookupSucceedsIff | src/pages/TransactionDetail.tsx:22-72 | the lookup succeeds iff the id is TXN001, TXN002 or TXN003, and then returns a record of the table |
| TransactionDetail.UnknownIdNotFound | src/pages/TransactionDetail.tsx:71 | "INVALID_ID" and "TXN004" give the not-found result |
| TransactionDetail.ResolveRoute | src/pages/TransactionDetail.tsx:75-79 | a missing or empty route parameter gives the not-found view; a record is shown iff the parameter is TXN001, TXN002 or TXN003, and it is the table's record with that id |
| TransactionDetail.DisplayName | src/pages/TransactionDetail.tsx:97-98 | the counterparty shown: the recipient of an outgoing record, the sender of an incoming one; stated for the table by TableNamesCounterparty |
| TransactionDetail.TableNamesCounterparty | src/pages/TransactionDetail.tsx:97-98 | every record of the table has a name to show: the recipient if outgoing, the sender if incoming |
| TransactionDetail.FeeSlotAsWritten | src/pages/TransactionDetail.tsx:271 | the fee row appears iff a positive fee is present, and a stray "0" is printed iff the fee is exactly 0 |
| TransactionDetail.StrayZeroForFreeTransfers | src/pages/TransactionDetail.tsx:271 | the code as written prints a stray "0" for TXN001 and TXN002 |
| TransactionDetail.FeeSlotIntended | src/pages/TransactionDetail.tsx:271 | the fee row appears iff a positive fee is present, shows that fee, and nothing else is ever printed |
| TransactionDetail.FeeSlotsAgreeElsewhere | src/pages/TransactionDetail.tsx:271 | the two readings agree on every fee except exactly 0 |
| TransactionDetail.OnlyFeeRowForTxn003 | src/pages/TransactionDetail.tsx:271 | under the intended reading only TXN003 shows a fee row, with fee 5 |

## Left out

- Rendering: the markup, icons, colours, `toLocaleString` formatting, the status colour and label helpers, and the receipt toggle on the detail page.
- The simulated delays (`setTimeout`) and the `async` suspension. The load and the submission are each one atomic step. The busy flag is set and cleared inside that step, so the intermediate state where a spinner shows is not modelled. A filter or query changed during the load's delay is covered, because the effect that follows the load uses the filters and query current at that moment.
- `Math.random`: it becomes the `fails` / `succeeds` parameter.
- `alert`, navigation links, the QR scanner modal and the history page's `showFilters` and `selectedTransaction` state: these are user interface with no logic.
- The quick-amount buttons (src/pages/Transfer.tsx:296). They call the amount setter with a number's `toString`, which is `TransferDraft.SetAmount` with that string.
- `maxLength` on the memo and PIN inputs, which the browser enforces. The model lets any string reach the handlers.
- `parseFloat`, `toLowerCase` and `toDateString`: parameters. No property depends on how they compute. IEEE floating point in the sums is replaced by exact reals.
- The mock `Date`s are built from local-time components. The model takes the local zone to be UTC when it turns them into milliseconds. Only their order matters to the proofs, and that order holds in every zone.
- The fallback message 'เกิดข้อผิดพลาด' in both catch blocks. Only an `Error` is ever thrown there, so that branch cannot be reached.
- PinErrors: counts the PIN length in Unicode scalar values, while JavaScript counts UTF-16 code units. The two differ only for characters outside the Basic Multilingual Plane.
- TransferWizard.ValidatePayTag: the same length convention applies. Every character the regular expression accepts is ASCII, so acceptance is not affected.

## Findings

| source | as written | input that shows it | evidently intended | confidence | as-written member | corrected member |
|---|---|---|---|---|---|---|
| src/pages/TransactionDetail.tsx:271 | `{transaction.fee && transaction.fee > 0 && (row)}` stops at the number 0 when the fee is 0, and React prints that 0 as text in the cost breakdown | TXN001 or TXN002, whose fee is 0 | show the fee row only for a positive fee and otherwise print nothing | not executed | TransactionDetail.FeeSlotAsWritten with TransactionDetail.StrayZeroForFreeTransfers | TransactionDetail.FeeSlotIntended with TransactionDetail.OnlyFeeRowForTxn003 |
