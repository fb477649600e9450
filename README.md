# Cashbook ledger engine, modelled in Dafny

This project models the core of a multi-tenant cashbook backend. Businesses keep customers and
suppliers, each with a running `balance`, and record IN/OUT transactions against them.
Transactions are paid CASH or ONLINE.

The model covers three parts of the source:

- the transaction model: create, update and delete, each with its balance updates; the filtered
  listing; the single-row read with its party join; the per-party listings, newest first; and the
  monthly analytics;
- the customer model;
- the supplier model.

The two party models are the same code over two tables. They are modelled once, with the table as
a parameter (`Category`).

## Layout

- `schema.dfy` (`Schema`) holds:
  - the rows of the three tables: `Party`, `Tx` and the eight mutable columns `Changes`;
  - the error kinds;
  - `Credit` and `Debit`, i.e. `UPDATE ... SET balance = balance ± ? WHERE id = ? AND businessId = ?`.
- `text.dfy` (`Text`) holds the binary text order SQLite uses to compare dates (`LexLe`) and the
  substring test used for search.
- `ledger.dfy` (`Ledger`) holds the transaction operations as functions from the tables before
  the call to a result and the tables after it:
  - a failed operation returns the tables unchanged, which is what BEGIN/ROLLBACK guarantees;
  - the source's sign constants are written out as they appear.
- `ledger_proofs.dfy` (`LedgerProofs`) defines the ledger invariant and proves what each operation
  does to it:
  - `Posted` is the signed sum of the transactions charged to a party;
  - `Offset` is the party's balance minus `Posted`, i.e. its base balance;
  - an operation checks out (keeps the ledger) when it leaves every `Offset` unchanged.
- `queries.dfy` (`Queries`) holds getAll's filters and the per-party listings sorted by date.
- `analytics.dfy` (`Analytics`) holds:
  - the GROUP BY query as a function;
  - the `forEach` merge as a method with a loop;
  - the per-month report that both are proved to compute.
- `registry.dfy` (`Registry`) holds the customer and supplier models, including the cascading delete.
- `store.dfy` (`Cashbook`) holds the class `Store` with fields `customers`, `suppliers` and `txs`:
  - its methods change those fields step by step, as the source's statements do;
  - each method is proved to produce exactly the tables the matching function above describes.
- `scenarios.dfy` (`Scenarios`) holds worked examples on concrete tables.

## Behaviour worth knowing

The model follows the code in each case.

- **Customer update signs.**
  - The update code marks two steps with comments: "Reverse original balance changes"
    (`src/models/transactionModel.js:218`) and "Apply new balance changes" (`:268`).
  - The supplier branches (`:232-245` and `:282-295`) do what the comments say. Their net
    effect is `+delta(new) - delta(orig)`.
  - The customer branches (`:219-231` and `:269-281`) subtract `-delta(orig)` and then subtract
    `delta(new)`. Their net effect is `delta(orig) - delta(new)`, the opposite sign.
  - Editing a customer's IN 100 to IN 50 therefore leaves 150, where reversing and re-applying
    would give 50 (`Scenarios.CustomerWalkThrough`).
  - The customer's base balance moves by `2 * (delta(orig) - delta(new))`
    (`LedgerProofs.CustomerUpdateNetEffect`).
- **Counterparty missing or in another business.** The code does not check that the named
  customer or supplier belongs to the business. The row is inserted, and the business-scoped
  balance UPDATE matches no row. For a party of another business this holds whatever the
  foreign-key setting, since the keys reference only the global party ids
  (`src/database/setup.js:44-45`). For a missing party it rests on an assumption about foreign
  keys; see "## Left out".
- **Which counterparty is charged.** The code does not check `category` against the ids, and it
  does not check that only one of `customerId` and `supplierId` is set. A non-empty `customerId`
  wins. An empty string counts as absent (JavaScript truthiness, `Schema.Given`).
- **getAll's `search`.** It is accepted and ignored.

## Model

| member | source | states |
|---|---|---|
| Schema.Delta | src/models/transactionModel.js:162-165 | the signed amount of a transaction: +amount for IN, -amount for OUT |
| Schema.Credit | src/models/transactionModel.js:167-186 | adds `d` to the balance of the one party with that id in that business; every other row and field is unchanged; a missing or foreign party changes nothing |
| Schema.Debit | src/models/transactionModel.js:225-230 | `balance - x` is the same as crediting `-x` |
| Schema.CreditTwice | src/models/transactionModel.js:161-187 | two postings to the same party add up |
| Schema.CreditZero | src/models/transactionModel.js:161-187 | posting zero changes nothing |
| Text.LexLeTotal | src/models/transactionModel.js:14-21 | text order on dates is total |
| Text.LexLeAntisym | src/models/transactionModel.js:14-21 | text order on dates is antisymmetric |
| Text.LexLeTrans | src/models/transactionModel.js:14-21 | text order on dates is transitive |
| Text.LexLePrefix | src/models/transactionModel.js:380 | cutting two ordered strings to the same length keeps their order |
| Text.Contains | src/models/customerModel.js:10-13 | true exactly when the term occurs at some position of the text |
| Ledger.FindTx | src/models/transactionModel.js:206-212 | a row with that id and business is found whenever one exists; nothing is found otherwise |
| Ledger.GetById | src/models/transactionModel.js:40-67 | returns a row exactly when one has that id and business; the row carries the customer's name and phone when `customerId` is set, else the supplier's, else none |
| LedgerProofs.CreateOutcome | src/models/transactionModel.js:138-158 | create fails exactly on a taken id and then leaves the tables unchanged; otherwise the row is appended |
| LedgerProofs.CreateBalances | src/models/transactionModel.js:161-187 | create changes only the charged party's balance, by +amount for IN and -amount for OUT; customerId wins when both ids are given; a missing party or no party changes no balance |
| LedgerProofs.CreateKeepsLedger | src/models/transactionModel.js:141-187 | create keeps every customer's and supplier's base balance |
| LedgerProofs.CreateReadsBack | src/models/transactionModel.js:190 | the row create returns is the row getById then reads |
| LedgerProofs.CreateThenDelete | src/models/transactionModel.js:327-362 | deleting a just-created row restores all tables exactly |
| LedgerProofs.MissingRowFails | src/models/transactionModel.js:214-216 | update and delete of an absent id fail with "Transaction not found" and change nothing |
| LedgerProofs.UpdateRow | src/models/transactionModel.js:248-266 | update rewrites the matching row in place (`txs[k := ...]`) and no other; that row takes the eight mutable columns and keeps id and businessId; update returns what getById reads back |
| LedgerProofs.ReplaceRowAt | src/models/transactionModel.js:248-266 | with unique ids, the UPDATE changes only the row at the matching index; every other row keeps its value and its position |
| LedgerProofs.UpdateBalances | src/models/transactionModel.js:218-295 | per party, update moves a supplier by `+delta(new) - delta(orig)` and a customer by `delta(orig) - delta(new)`, where each delta counts only if the row is charged to that party |
| LedgerProofs.UpdateKeepsSupplierLedger | src/models/transactionModel.js:232-295 | update's supplier reversal (`:232-245`) and supplier apply step (`:282-295`) together keep every supplier's base balance |
| LedgerProofs.SupplierBooksBalance | src/models/transactionModel.js:134-371 | if every supplier's balance equals the signed sum of its transactions, that still holds after a create, an update or a delete |
| LedgerProofs.CustomerUpdateNetEffect | src/models/transactionModel.js:219-231 | update moves a customer's base balance by `2 * (charge(orig) - charge(new))`, so the customer ledger is kept only when the charge does not change |
| LedgerProofs.DeleteKeepsLedger | src/models/transactionModel.js:327-362 | delete removes exactly the matching row (`txs[..k] + txs[k+1..]`), lowers only the charged party's balance by its delta, and keeps every customer's and supplier's base balance |
| LedgerProofs.RemoveRowAt | src/models/transactionModel.js:356-361 | with unique ids, the DELETE removes only the row at the matching index; the rows before and after it keep their values and their order |
| LedgerProofs.UpdateThenRevert | src/models/transactionModel.js:199-298 | an update followed by an update back to the original fields restores every table |
| LedgerProofs.ApplyThenReverse | src/models/transactionModel.js:218-295 | the reverse step undoes the apply step for the same fields |
| LedgerProofs.CreateKeepsIds | src/database/setup.js:33 | create keeps transaction ids unique |
| LedgerProofs.UpdateKeepsIds | src/database/setup.js:33 | update keeps transaction ids unique |
| LedgerProofs.DeleteKeepsIds | src/database/setup.js:33 | delete keeps transaction ids unique |
| Queries.Matching | src/models/transactionModel.js:11-33 | getAll's rows are exactly the business's rows on which every given filter holds |
| Queries.SelectMatching | src/models/transactionModel.js:11-35 | a WHERE clause equivalent to the filters selects exactly getAll's rows, in store order |
| Queries.MatchingAppend | src/models/transactionModel.js:35 | results keep store order: an earlier part of the log comes first |
| Queries.FilterOrderIrrelevant | src/models/transactionModel.js:14-33 | the order in which the conditions are applied does not change the result |
| Queries.SortByDateDesc | src/models/transactionModel.js:432 | the result is ordered by date, newest first, and is a permutation of the input |
| Queries.ByParty | src/models/transactionModel.js:420-460 | the per-party listing holds exactly the business's rows naming that party, each with the party's name and phone, newest first |
| Analytics.CalendarDates | src/models/transactionModel.js:380 | the dates on which strftime yields a month: leap days only in leap years; no month 00 or 13; no day past the month's end |
| Analytics.MonthKeyOrder | src/models/transactionModel.js:380 | on calendar dates the key is YYYY-MM, and a later date never has an earlier month |
| Analytics.Months | src/models/transactionModel.js:386-387 | the month keys are strictly ascending and are exactly the months that occur in the log |
| Analytics.MergeByMonth | src/models/transactionModel.js:395-417 | the loop produces, in the order months are first seen, each month's per-mode and overall sums of the grouped rows, with its balance |
| Analytics.MergedIsReport | src/models/transactionModel.js:376-417 | the query followed by the merge yields, for each month in ascending order, its CASH and ONLINE IN/OUT sums and its overall IN/OUT sums |
| Analytics.ReportShape | src/models/transactionModel.js:397-416 | one record for each month of the log, in ascending order; `totalIn = cash.totalIn + online.totalIn`, likewise for Out; `balance = totalIn - totalOut` |
| Analytics.ReportSums | src/models/transactionModel.js:382-383 | summed over months, totalIn is the sum of all IN amounts and totalOut the sum of all OUT amounts |
| Analytics.ModeSplit | src/models/transactionModel.js:408-411 | a month's sum is its CASH sum plus its ONLINE sum |
| Analytics.TwoModesOneMonth | src/models/transactionModel.js:376-417 | CASH/IN 100 and ONLINE/OUT 40 in one month give 100, 40, 100, 40 and balance 60 |
| Registry.List | src/models/customerModel.js:5-21 | the business's parties; with a non-empty search, exactly those whose name or phone contains it |
| Registry.ListFindsName | src/models/customerModel.js:10-13 | searching for a party's own name finds it |
| Registry.ListNarrows | src/models/supplierModel.js:10-13 | a longer search term never lists more |
| Registry.GetParty | src/models/customerModel.js:23-30 | a party is returned exactly when both id and businessId match |
| Registry.CreatePartyReadsBack | src/models/customerModel.js:32-40 | create fails exactly on a taken id and then changes nothing; otherwise the row, with balance 0 when none is given, reads back, and nothing else changes |
| Registry.CreatePartyKeepsLedger | src/models/supplierModel.js:32-40 | create keeps every existing party's base balance; the new party's base is its balance minus what the log already charges to its id |
| Registry.UpdatePartyEffect | src/models/customerModel.js:42-51 | update overwrites name, phone and balance of the matching row only, adds no key, leaves the other table and the log as they were, moves its base balance by new minus old balance, is a no-op when nothing matches, and returns the input either way |
| Registry.DeleteRemoves | src/models/customerModel.js:53-60 | after delete the party is gone from the business, no row of the business names it, the table loses exactly that key when the party is the business's (a same-id party of another business survives) and nothing otherwise, and the other table is unchanged |
| Registry.DeleteLedger | src/models/supplierModel.js:53-60 | delete raises a remaining party's base balance by the signed sum of the removed rows charged to it |
| Registry.DeleteCustomerKeepsLedger | src/models/customerModel.js:55-58 | deleting a customer keeps every remaining party's ledger |
| Registry.DeleteSupplierKeepsSupplierLedger | src/models/supplierModel.js:55-58 | deleting a supplier keeps every remaining supplier's ledger |
| Registry.DeleteSupplierCustomerLedger | src/models/supplierModel.js:55-56 | deleting a supplier keeps a customer's ledger when no removed row also names that customer |
| Registry.DeleteAbsent | src/models/customerModel.js:53-60 | deleting an absent party that no row names changes nothing |
| Registry.UnreferencedAppend | src/models/customerModel.js:55-56 | the cascade keeps the surviving rows in their order: each part of the table loses exactly its own rows naming the party |
| Registry.UnreferencedCons | src/models/supplierModel.js:55-56 | a row naming the party is dropped and any other row is kept, at the front of what survives of the rest |
| Registry.UnreferencedUnique | src/database/setup.js:33 | the cascade keeps transaction ids unique |
| Cashbook.Store.CreateTransaction | src/models/transactionModel.js:134-197 | the new tables and the result are those of `Ledger.CreateTx`; ids stay unique |
| Cashbook.Store.UpdateTransaction | src/models/transactionModel.js:199-305 | the new tables and the result are those of `Ledger.UpdateTx`; ids stay unique |
| Cashbook.Store.ReverseBalance | src/models/transactionModel.js:218-245 | applies update's reversal step on the original row's party |
| Cashbook.Store.ApplyBalance | src/models/transactionModel.js:268-295 | applies update's apply step on the party the updates name |
| Cashbook.Store.DeleteTransaction | src/models/transactionModel.js:307-371 | the new tables and the result are those of `Ledger.DeleteTx`; ids stay unique |
| Cashbook.Store.GetAll | src/models/transactionModel.js:5-38 | the clause list built filter by filter selects exactly `Queries.Matching` |
| Cashbook.Store.GetAnalytics | src/models/transactionModel.js:373-418 | returns `Analytics.Report` of the business's rows |
| Cashbook.Store.AddParty | src/models/customerModel.js:32-40 | the new tables and the result are those of `Registry.CreateParty` |
| Cashbook.Store.ChangeParty | src/models/supplierModel.js:42-51 | the new tables and the result are those of `Registry.UpdateParty` |
| Cashbook.Store.RemoveParty | src/models/customerModel.js:53-60 | the new tables are those of `Registry.DeleteParty`; ids stay unique |
| Cashbook.Store.constructor | src/database/setup.js:14-46 | starts with empty tables |
| Scenarios.CustomerWalkThrough | src/models/transactionModel.js:161-295 | the walk-through on a customer as the code runs it: 100, 70, 100, then 150 after the edit to 50 |
| Scenarios.SupplierUpdate | src/models/transactionModel.js:232-295 | the same edit on a supplier gives 100, then 50 |

## Left out

- Money is `int` in minor units. SQLite REAL amounts and balances would bring floating-point
  rounding.
- The route validators are stated as method preconditions. An amount of at least 0.01 becomes
  at least 1 minor unit. Non-empty ids, names, phones and dates are required. The enum checks come
  from the types. The functions themselves accept any values.
- Foreign keys are modelled as switched off. This is an assumption, not something the code shows.
  Only the shared connection in `src/database/db.js:28` sets `foreign_keys = ON`. The three models
  open their own connections, so enforcement there depends on the SQLite build's default. The keys
  are `businessId REFERENCES businesses(id)` on every table (`src/database/setup.js:20`, `:29`,
  `:43`) and `customerId`/`supplierId` referencing the global party ids (`:44-45`). With
  enforcement on, these statements would fail instead of succeeding:
  - a transaction create or update naming a missing party, an empty `customerId`, or an unknown
    business would fail and roll back;
  - a party create for an unknown business would fail;
  - the second DELETE of a party delete (`src/models/customerModel.js:57`,
    `src/models/supplierModel.js:57`) would fail while a row of another business still names the
    id, after the first DELETE has already removed the business's rows, since there is no BEGIN.

  These members depend on the assumption:
  - `Ledger.CreateTx` and `Ledger.UpdateTx`, and through them `Cashbook.Store.CreateTransaction`
    and `Cashbook.Store.UpdateTransaction`;
  - `LedgerProofs.CreateBalances`, for a party that is absent;
  - `Registry.CreateParty`, `Registry.CreatePartyReadsBack` ("fails exactly on a taken id") and
    `Cashbook.Store.AddParty`, for an unknown business;
  - `Registry.CreatePartyKeepsLedger`, for rows that name a party before it exists;
  - `Registry.DeleteParty`, `Registry.DeleteRemoves` and `Cashbook.Store.RemoveParty`, for a party
    id still named by another business's rows;
  - `Registry.DeleteSupplierCustomerLedger`, for rows that name a missing customer.
- A NOT NULL or CHECK violation cannot arise with the typed rows.
- BEGIN/COMMIT/ROLLBACK are modelled only as "a failed operation leaves the tables unchanged".
  There is no concurrency or locking.
- `LIKE` is modelled as a plain substring test. Its `%`/`_` wildcards inside the term and its
  ASCII case folding are not modelled.
- Analytics.MonthKey: agrees with `strftime('%Y-%m', date)` only on calendar dates
  (`WellFormedDate`: `YYYY-MM-DD`, month 01-12, day within the month, Gregorian leap years).
  `Cashbook.Store.GetAnalytics` requires that of the business's dates. The NULL month strftime
  gives an out-of-range month or day is not modelled. Nor is the roll-over of a day past the
  month's end into the next month.
- MonthKeyOrder: stated only for calendar dates (`WellFormedDate`). On other strings the key is
  still the first seven characters, while strftime gives NULL or a later month.
- Analytics.GroupByMonthAndMode: SQL leaves the order of the two payment-mode groups within a
  month unspecified. The model lists CASH first. The merged records do not depend on that order.
- Queries.SortByDateDesc: SQL leaves the order of rows with equal dates unspecified. The model
  fixes one order and proves only sortedness and permutation.
- Registry.List: returns a map keyed by id. SQL's row order without ORDER BY is not modelled.
- Cashbook.Store.CreateTransaction: the primary-key test reads the table as a function call
  rather than as a failing INSERT.
- The stale `create` variant left commented out in the transaction model is not modelled.
- The PDF generator is not modelled; its totals repeat the analytics sums.
- Routers, authentication, users, the business table, the connection singleton and server
  start-up are not modelled. Businesses appear only as `businessId` strings.
