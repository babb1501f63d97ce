# GastoZen ledger and spreadsheet import, in Dafny

GastoZen is a personal-finance tracker. Its state is three lists kept by
`GastoZenProvider`: accounts (each with a balance), categories (income or
expense) and transactions (an amount, an income/expense type, a date, a
category and an account). This project models

- the **ledger engine**: `updateAccountBalance`, `addTransaction`,
  `updateTransaction`, `deleteTransaction`, and the add/update/delete
  operations on accounts and categories, with their accept and reject
  conditions. They are methods of the class `LedgerEngine.Ledger`, whose
  fields are the three lists;
- the **import reconciliation** of the settings page: decoded spreadsheet
  rows are normalised into categories, account definitions and transactions,
  each transaction's category and account are resolved (by id, then by name,
  then by fallback), unresolvable rows are dropped, and every account balance
  is recomputed from the sheet's balance and the imported transactions.

The main invariant of the ledger (`Ledger.Valid`) gives every account an
*opening balance* (the ghost field `openings`). Each account's balance is then
its opening balance plus the incomes minus the expenses of the transactions
that reference it. Every accepted add, update and delete of a transaction
keeps the opening balances unchanged. Transaction ids stay distinct, and the
list stays ordered by date, most recent first.

Module layout:

| file | module | contents |
|---|---|---|
| wrappers.dfy | `Wrappers` | `Option` |
| domain.dfy | `Domain` | the entities of types.ts and the signed effect of a transaction (`SignedSum`) |
| seqs.dfy | `Seqs` | the `find`, `map`-replace and `filter`-remove by id used everywhere |
| dates.dfy | `Dates` | the order on `YYYY-MM-DD` dates and the date pattern |
| timeline.dfy | `Timeline` | the stable sort by date, most recent first |
| balances.dfy | `Balances` | the balance adjustments and the lemmas behind the invariant |
| ledger.dfy | `LedgerEngine` | the class `Ledger` |
| import.dfy | `Import` | the import reconciliation |
| scenarios.dfy | `Scenarios` | worked examples on a two-account household |

Modelling choices:

- Amounts and balances are integers. The currency is shown without
  decimals, and the amount fields of the forms step by 1.
- Dates are `YYYY-MM-DD` text. The source sorts with
  `new Date(b.date) - new Date(a.date)`. For dates of that form, this order
  is the lexicographic order on the text. The sort is stable, so
  `SortByDateDesc` is an insertion sort that keeps equal dates in their
  previous order.
- Each state setter becomes an assignment to a field. The two balance
  adjustments of `updateTransaction` apply one after the other, each to the
  result of the previous one.
- Ids the source makes up with `Date.now()` or `Math.random()` are method
  parameters. `AddTransaction` requires its id to be unused.
- What the user is shown in an alert becomes the `Rejection` an operation
  returns.

Update checks only the destination account. `UpdateTransaction` follows the
source: when the updated transaction is an expense, it compares the amount
with the destination account's effective balance. It never checks the
account the original transaction is taken back from. An income moved to
another account, either as an income or turned into an expense the
destination can cover, can therefore leave its first account negative.
`Scenarios.MovingAnIncomeCanOverdrawItsAccount` and
`Scenarios.TurningAnIncomeIntoAnExpenseCanOverdrawItsAccount` each leave a
balance of -50. `deleteTransaction` refuses to remove that same income.

## Model

| member | source | states |
|---|---|---|
| Domain.SignedSumIsIncomeMinusExpense | App.tsx:1311-1318 | the signed effect of a list of transactions on an account equals its income total minus its expense total |
| Domain.SignedSumConcat | App.tsx:1311-1318 | the signed effect of two concatenated lists is the sum of their effects |
| Domain.SignedSumWithout | App.tsx:210 | removing the transaction at one position takes exactly its own contribution out of the signed effect |
| Domain.UnreferencedSignedSum | App.tsx:231 | transactions that do not reference an account have no effect on it |
| Domain.ReferencesAccount | App.tsx:231 | `some` is true exactly when at least one transaction is booked on the account |
| Domain.ReferencesCategory | App.tsx:248 | `some` is true exactly when at least one transaction is filed under the category |
| Seqs.IndexOfKey | App.tsx:136 | the result is the first position with that id; there is none exactly when no element has that id |
| Seqs.FindByKey | App.tsx:255-256 | `find` returns the element at the first position with that id, and finds one exactly when such a position exists |
| Seqs.IndexOfSameKeys | App.tsx:121-130 | two lists with the same ids position by position give the same lookup result |
| Seqs.ReplaceByKey | App.tsx:182 | the list keeps its length; every element with that id is replaced and every other is kept |
| Seqs.ReplaceByKeyAt | App.tsx:182 | with distinct ids, replacing by id rewrites exactly the one position that holds the id |
| Seqs.RemoveByKey | App.tsx:235 | the result holds exactly the elements whose id differs, and is no longer than the input |
| Seqs.RemoveByKeyCounts | App.tsx:252 | removing by id keeps every other element with its multiplicity, and drops every element with that id |
| Seqs.RemoveByKeyAt | App.tsx:210 | with distinct ids, filtering out an id deletes exactly its position and keeps the order of the rest |
| Seqs.ReplaceKeepsDistinct | App.tsx:182 | replacing by id keeps ids distinct |
| Seqs.DistinctWithout | App.tsx:210 | deleting a position keeps ids distinct |
| Seqs.Kept | App.tsx:1306 | the filter keeps at most as many values as there were entries, and a value is kept exactly when some entry holds it |
| Seqs.KeptConcat | App.tsx:1306 | filtering two lists one after the other gives the two filtered lists one after the other, so the filter keeps order |
| Seqs.KeptNone | App.tsx:1306 | filtering a list whose every entry is absent leaves nothing |
| Dates.LexLeTotal | App.tsx:144 | any two dates are comparable |
| Dates.LexLeTransitive | App.tsx:144 | the date order is transitive |
| Dates.LexLeAtFirstDifference | App.tsx:144 | of two dates that agree up to a position, the one with the smaller character there comes first |
| Dates.LexLeAntisymmetric | App.tsx:144 | the date order is antisymmetric, so it is a total order |
| Timeline.InsertByDate | App.tsx:144 | inserting keeps every transaction and adds exactly the new one |
| Timeline.InsertSorted | App.tsx:144 | inserting into a list sorted most recent first keeps it sorted |
| Timeline.SortByDateDesc | App.tsx:183 | the sort returns a permutation of its input, ordered most recent first |
| Timeline.SortKeepsSorted | App.tsx:183 | sorting a list already in order returns it unchanged |
| Timeline.InsertPosition | App.tsx:144 | the new transaction lands after every strictly later one and before the first one that is not later |
| Timeline.SortPrepended | App.tsx:144 | sorting the new transaction prepended to a sorted list is the same as inserting it in place |
| Timeline.SignedSumInsert | App.tsx:144 | inserting a transaction adds exactly its contribution to every account's signed effect |
| Timeline.SignedSumSort | App.tsx:1327 | sorting changes no account's signed effect |
| Timeline.DistinctInsert | App.tsx:143-144 | inserting a transaction with an unused id keeps ids distinct |
| Timeline.DistinctSort | App.tsx:183 | sorting keeps ids distinct |
| Timeline.RemoveSorted | App.tsx:210 | deleting a position from a sorted list keeps it sorted |
| Balances.AdjustedBalance | App.tsx:123-126 | `add` raises the balance by the amount, `subtract` lowers it by the amount, `set` makes it the amount |
| Balances.BalanceUpdated | App.tsx:119-131 | only the balance of the account with that id changes: shifted up by `add`, down by `subtract`, replaced by `set`; every other account and field is kept; an unknown id changes nothing |
| Balances.ApplyEffect | App.tsx:145-149 | booking a transaction moves exactly its account's balance by +amount for income and -amount for expense |
| Balances.ReverseEffect | App.tsx:186-190 | taking a transaction back moves its account's balance by -amount for income and +amount for expense |
| Balances.ReverseUndoesApply | App.tsx:211-215 | booking and taking back the same transaction cancel out, in either order |
| Balances.EffectiveBalance | App.tsx:163-170 | the target's balance with the original transaction's signed effect taken off when it is on the same account, and untouched otherwise |
| Balances.AdjustedIndex | App.tsx:121-130 | balance adjustments keep every account found at the same position |
| Balances.EffectiveBalanceIsReversedBalance | App.tsx:163-170 | when the account is unchanged, the effective balance is the target's balance once the original transaction is taken back |
| Balances.AddedExpenseNonNegative | App.tsx:135-141 | an expense the funds check lets through leaves its account non-negative |
| Balances.UpdatedExpenseNonNegative | App.tsx:160-196 | an expense update the effective-balance check lets through leaves the destination account non-negative |
| Balances.DeletedIncomeNonNegative | App.tsx:202-215 | removing an income the guard lets through leaves its account non-negative |
| Balances.Baselines | App.tsx:115-116 | every account's balance is its opening balance plus the signed effect of the transactions referencing it |
| Balances.AddKeepsBaselines | App.tsx:143-149 | adding a transaction keeps every account's opening balance |
| Balances.UpdateKeepsBaselines | App.tsx:181-196 | updating a transaction keeps every account's opening balance |
| Balances.DeleteKeepsBaselines | App.tsx:210-215 | deleting a transaction keeps every account's opening balance |
| Balances.UpdateWithSameValueChangesNothing | App.tsx:181-196 | updating a transaction with its own value leaves the list and every balance unchanged |
| Balances.MoveShiftsEffect | App.tsx:186-196 | moving a transaction to another account takes its effect off the old account and puts it on the new one; every other account and field is untouched |
| Balances.AddThenDeleteRestores | App.tsx:134-217 | adding a transaction and then deleting it restores the list and every balance |
| Balances.RemoveInserted | App.tsx:210 | filtering out the id just inserted returns the list it was inserted into |
| LedgerEngine.WithId | App.tsx:143 | the new transaction carries every field of the draft and the given id |
| LedgerEngine.Ledger.constructor | App.tsx:115-117 | starts a ledger from the stored lists; the opening balances follow from them |
| LedgerEngine.Ledger.GetAccountById | App.tsx:256 | returns the first account with that id, and none exactly when no account has it |
| LedgerEngine.Ledger.GetCategoryById | App.tsx:255 | returns the first category with that id, and none exactly when no category has it |
| LedgerEngine.Ledger.UpdateAccountBalance | App.tsx:119-131 | the accounts become `BalanceUpdated` of the old accounts; transactions, categories and opening balances are unchanged |
| LedgerEngine.Ledger.AddTransaction | App.tsx:134-150 | an expense above its existing account's balance is refused with that account's name, the amount and the balance, and nothing changes; otherwise the new transaction is inserted in date order and booked on its account (a missing account changes no balance), the invariant holds, and an accepted expense leaves its account non-negative |
| LedgerEngine.Ledger.UpdateTransaction | App.tsx:152-197 | refused, with nothing changed, when the id is unknown, when an expense's account is missing, or when an expense exceeds the effective balance; otherwise the transaction is replaced by id, the list re-sorted, the original taken back and the update booked, the invariant holds, and an accepted expense leaves its destination non-negative |
| LedgerEngine.Ledger.Rebook | App.tsx:181-196 | the accepted path of an update: replace, re-sort, take back, book, keeping the invariant |
| LedgerEngine.Ledger.DeleteTransaction | App.tsx:199-217 | an unknown id changes nothing; removing an income that would leave its account below zero is refused with the resulting balance; otherwise exactly that transaction is removed, the others keep their order, its effect is taken back, and the invariant holds |
| LedgerEngine.Ledger.Unbook | App.tsx:210-215 | the accepted path of a delete: remove the position, take its effect back, keeping the invariant |
| LedgerEngine.Ledger.AddAccount | App.tsx:219-223 | appends the account with the given opening balance; nothing else changes |
| LedgerEngine.Ledger.UpdateAccount | App.tsx:225-228 | replaces the accounts with that id; every other account keeps its opening balance |
| LedgerEngine.Ledger.DeleteAccount | App.tsx:230-236 | refused with nothing changed while any transaction references the account; otherwise removes exactly the accounts with that id |
| LedgerEngine.Ledger.AddCategory | App.tsx:238-241 | appends the category; nothing else changes |
| LedgerEngine.Ledger.UpdateCategory | App.tsx:243-245 | replaces the categories with that id; nothing else changes |
| LedgerEngine.Ledger.DeleteCategory | App.tsx:247-253 | refused with nothing changed while any transaction references the category; otherwise removes exactly the categories with that id |
| Import.NormalizeCategory | App.tsx:1230-1236 | a category is income exactly when the row says `Ingreso` or `income`, and expense otherwise; it keeps the row's id when there is one, else takes the id made up for it; it always has an icon |
| Import.KindOf | App.tsx:1272 | a row is income exactly when labelled `Ingreso` in the sheet column or `income` in the older key, and expense otherwise |
| Import.AmountOf | App.tsx:1300 | the amount is the sheet's non-zero `Monto`; failing that, the older `amount`; failing both, 0 |
| Import.NormalizeCategories | App.tsx:1230-1236 | one category per row, in row order, each the normalisation of its row |
| Import.CategoryIndexByName | App.tsx:1277 | the lookup stops at the first category with that name and type, and finds none exactly when there is none |
| Import.IndexOfKind | App.tsx:1238-1239 | the lookup stops at the first category of that type, and finds none exactly when there is none |
| Import.DefaultCategory | App.tsx:1238-1239 | the fallback is the first category with that name and type; when there is none, the first category of that type; it is always of the requested type, and there is none exactly when no category has that type |
| Import.ParseAccountType | App.tsx:1244 | every type other than `other` comes from exactly its own label; anything else becomes `other` |
| Import.ParseAccountTypeLabel | App.tsx:1244 | each of the six labels of types.ts reads back as its own type |
| Import.NormalizeAccount | App.tsx:1241-1248 | an account definition keeps the row's id or takes the made-up one; its base balance is the sheet's `Saldo` or 0; its type is one of the six labels or `other`; it always has an icon |
| Import.NormalizeAccounts | App.tsx:1241-1248 | one account definition per row, in row order, each the normalisation of its row |
| Import.AccountIndexByName | App.tsx:1287 | the lookup stops at the first account with that name, and finds none exactly when there is none |
| Import.NormalizeDate | App.tsx:1252-1270 | a date already in `YYYY-MM-DD` form is kept unchanged; any other value becomes what the host's date handling gives |
| Import.CategoryFoundByName | App.tsx:1275-1278 | the by-name lookup runs only when the row has no category id but a name, and then finds the first category with that name and the row's type |
| Import.AccountFoundByName | App.tsx:1285-1288 | the by-name lookup runs only when the row has no account id but a name, and then finds the first account with that name |
| Import.ResolveCategoryId | App.tsx:1274-1283 | a given id that names an imported category is kept; otherwise the id of the category found by name, when it has one; otherwise the fallback's id for the row's type, or nothing without a fallback; a usable result always names an imported category |
| Import.ResolveAccountId | App.tsx:1285-1293 | a given id that names an imported account is kept; otherwise the id of the account found by name, when it has one; otherwise the first account's id, or nothing without accounts; a usable result always names an imported account |
| Import.NormalizeTransaction | App.tsx:1251-1306 | a row is dropped exactly when its resolved category or account is unusable; a kept row carries those resolved ids, the row's id or the made-up one, the normalised date, the row's type and amount, and the description and notes or their defaults |
| Import.RowKeptWithFallbacks | App.tsx:1281-1295 | a row is never dropped when its type has a fallback category and there is an account to fall back on |
| Import.NormalizeTransactions | App.tsx:1251-1306 | a transaction is imported exactly when some row normalises to it; there are at most as many as rows; each names an imported category and an imported account |
| Import.NormalizedRows | App.tsx:1251-1305 | one entry per row, in row order, each the row's normalisation or nothing |
| Import.NormalizedRowsSplit | App.tsx:1251-1305 | normalising the rows before and after any split point gives the two halves of the normalised rows |
| Import.ImportKeepsRowOrder | App.tsx:1251-1306 | the transactions imported from the rows are those of the rows before any split point followed by those of the rows after it, so they come in row order |
| Import.NoAccountsDropsEveryRow | App.tsx:1292-1295 | with no imported accounts, every transaction row is dropped |
| Import.Rebalanced | App.tsx:1320 | the rebalanced account keeps every field but the balance, which is the sheet balance plus the signed effect when that is non-negative, and 0 otherwise |
| Import.ReplayBalance | App.tsx:1310-1319 | the loop gives the sheet balance plus the account's incomes minus its expenses, clamped at zero, and keeps every other field |
| Import.ReconcileBalances | App.tsx:1309-1320 | every account definition is rebalanced in place, and every final balance is non-negative |
| Import.BalancesSurviveSort | App.tsx:1327 | the balances replayed over the sheet's order equal those over the stored, sorted order |
| Import.ReferencesSurviveReconciliation | App.tsx:1327 | after sorting and rebalancing, every transaction still names an imported category and an imported account |
| Import.Reconcile | App.tsx:1230-1327 | the stored categories are the normalised rows; the stored transactions are exactly the rows' kept transactions, with the fallbacks "Otro Ingreso" and "Gasto Diverso", sorted most recent first; each account is its definition rebalanced by those transactions and is non-negative; every stored transaction names a stored category and a stored account |

## Left out

- React components, routing, themes and the modal are presentation only.
- Browser storage and JSON round-tripping are left out. `useLocalStorage` applies an updater function to the value it captured, not to the latest state (App.tsx:75). The two balance adjustments of `updateTransaction` may therefore not compose in the running app. The model applies them in sequence, which is what the code evidently means.
- The confirmation dialogs, the writes to storage after an import and the page reload are browser interaction. `Import.Reconcile` returns the three lists that would be written.
- Spreadsheet encoding and decoding, the sheet-presence checks and the array checks are a foreign library. The model starts from decoded rows. A text cell is absent or a string, and a number cell is absent or an integer.
- Number parsing, `NaN` and fractional amounts are left out: amounts are integers.
- Import.NormalizeDate: free-form date text, `Date` cell values and spreadsheet serial numbers go through the host's time-zone-dependent date handling. They are a parameter (`hostDate`). Only an ISO date kept unchanged is stated.
- Spreadsheet export writes the backup the import reads. It is not part of this model.
- The AI draft service and its parsing are a network call.
- The colour-brightness helper uses floating point.
- The dashboard's monthly totals depend on the current date.
- Id generation, alerts and console messages are not modelled. Made-up ids are parameters, and alert texts become `Rejection` values.
- LedgerEngine.Ledger.constructor requires the stored transactions to have distinct ids and to be in date order. Every operation of the app keeps both properties. An imported backup can carry two rows with the same id, and such a state is outside what the ledger's invariant covers.
- LedgerEngine.Ledger.UpdateTransaction guarantees a non-negative balance only for the destination of an accepted expense, because the source checks nothing else; the account an income is taken back from can go negative.
- LedgerEngine.Ledger.AddTransaction requires the fresh id to be unused. The source relies on `Date.now()` for this.
