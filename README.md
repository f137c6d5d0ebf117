# Expense ledger model (appqlchitieu)

A Dafny model of the ledger core of the `appqlchitieu` Android expense
tracker. The app keeps five Room tables: transactions (`Expense`, with type
"expense" or "income"), wallets, categories, users and budgets. The model
covers:

- the DAO queries and writes over those tables, with Room's conflict rules;
- the atomic "add a transaction and move its wallet" operation;
- the repository aggregations;
- the budget evaluator;
- the input checks of the screens that write to the tables.

The database is the class `Store.Store`. It holds one `seq` per table and
one AUTOINCREMENT counter per table. Its methods are the DAO writes, and
each states the new state as a function of the old one. The DAO queries are
functions over the table sequences. Each one is specified by membership
("exactly the user's rows of that category") and by its `ORDER BY`. The
order comes from a stable descending insertion sort that is proved to be a
permutation. Each screen's save, edit and delete handlers are classes whose
methods change the `Store`. They are proved against a checking function
that models the screen's `when`/`if` chain, every error branch included.

Amounts are exact `real` numbers. Primary keys are `int`. Dates are `int`
epoch milliseconds. A string is `seq<char>`, and `trim()` and
`isBlank()` follow Kotlin's definitions for the ASCII and Unicode space
characters the model lists (module `Text`).

Behaviour of the code that the model keeps as written:

- Only `addExpenseAndAffectWallet` moves a wallet balance. Editing a
  transaction writes the row only. Deleting a transaction removes the row
  and gives nothing back to the wallet (`TransactionRepository.AddThenDeleteKeepsDelta`).
  Editing a wallet overwrites its balance with the typed one.
- Deleting a wallet does not look at the transactions that name it.
  Deleting a category is refused only when one of the user's transactions
  names it. Budgets that name the category stay.
- `setLoggedIn` flags one user and leaves every other flag as it was, so two
  users can be flagged at once (`UserDao.SetLoggedInKeepsOthers`).
- The transaction edit screen keeps the picked category when the type chip
  changes. An edit can therefore store an income row under an expense
  category, which the next load cannot find again
  (`TransactionUpdateScreen.TypeChangeKeepsCategory`).
- The budget card paints the bar red at exactly the limit while its text
  still says "remaining 0" (`BudgetScreen.RemainAndBand`). With a limit
  below 1 the text can say "over" on an amber bar
  (`BudgetScreen.RemainAndBandBelowOne`).
- The budget add dialog starts with the first of the user's categories of
  any type, although its menu offers only expense categories.

## Model

All source paths are below `app/src/main/java/com/example/appqlchitieu/`
(written out in full in the table).

| member | source | states |
|---|---|---|
| Store.Store.constructor | app/src/main/java/com/example/appqlchitieu/model/AIChat.kt:13-27 | a fresh database has every table empty and every AUTOINCREMENT counter at 0 |
| Store.Store.Restore | app/src/main/java/com/example/appqlchitieu/repository/TransactionRepository.kt:21 | the rollback of a failed transaction puts back exactly the earlier state |
| Store.Store.InsertExpense | app/src/main/java/com/example/appqlchitieu/dao/ExpenseDao.kt:10-11 | REPLACE insert: a row with a stored id is overwritten in place; id 0 appends the row under the next AUTOINCREMENT id; keys stay unique and below the counter |
| Store.Store.UpdateExpense | app/src/main/java/com/example/appqlchitieu/dao/ExpenseDao.kt:13-14 | the row with the same id becomes the given row; no other table changes |
| Store.Store.DeleteExpense | app/src/main/java/com/example/appqlchitieu/dao/ExpenseDao.kt:16-17 | the row with that id goes, whatever its other fields; wallets keep their balances |
| Store.Store.InsertWallet | app/src/main/java/com/example/appqlchitieu/database/AppDatabase.kt:10-11 | REPLACE insert of a wallet, as for transactions |
| Store.Store.UpdateWallet | app/src/main/java/com/example/appqlchitieu/database/AppDatabase.kt:13-14 | the whole wallet row is overwritten, balance included |
| Store.Store.DeleteWallet | app/src/main/java/com/example/appqlchitieu/database/AppDatabase.kt:16-17 | the wallet row goes; transactions that name it stay |
| Store.Store.UpdateBalanceDelta | app/src/main/java/com/example/appqlchitieu/database/AppDatabase.kt:31-37 | the wallets table becomes `ApplyDelta` of the old one; nothing else changes |
| Store.Store.InsertCategory | app/src/main/java/com/example/appqlchitieu/dao/CategoryDao.kt:10-11 | REPLACE insert of a category |
| Store.Store.UpdateCategory | app/src/main/java/com/example/appqlchitieu/dao/CategoryDao.kt:13-14 | the category row with that id is overwritten |
| Store.Store.DeleteCategory | app/src/main/java/com/example/appqlchitieu/dao/CategoryDao.kt:16-17 | the category row goes |
| Store.Store.InsertCategories | app/src/main/java/com/example/appqlchitieu/dao/CategoryDao.kt:34-35 | `insertMany` succeeds exactly when `InsertAll` does, and then stores its table and counter; on a clash nothing is written |
| Store.Store.InsertUser | app/src/main/java/com/example/appqlchitieu/dao/UserDao.kt:10-11 | ABORT insert: fails exactly when the key is taken, and then writes nothing; otherwise appends |
| Store.Store.UpdateUser | app/src/main/java/com/example/appqlchitieu/dao/UserDao.kt:19-20 | the user row with that id is overwritten |
| Store.Store.SetLoggedIn | app/src/main/java/com/example/appqlchitieu/dao/UserDao.kt:26-27 | the users table becomes `UserDao.SetLoggedIn` of the old one |
| Store.Store.LogoutAll | app/src/main/java/com/example/appqlchitieu/dao/UserDao.kt:29-30 | the users table becomes `UserDao.LogoutAll` of the old one |
| Store.Store.InsertBudget | app/src/main/java/com/example/appqlchitieu/dao/BudgetDao.kt:10-11 | REPLACE insert of a budget |
| Store.Store.UpdateBudget | app/src/main/java/com/example/appqlchitieu/dao/BudgetDao.kt:13-14 | the budget row with that id is overwritten |
| Store.Store.DeleteBudget | app/src/main/java/com/example/appqlchitieu/dao/BudgetDao.kt:16-17 | the budget row goes |
| Rows.AutoKey | app/src/main/java/com/example/appqlchitieu/model/Expense.kt:16 | an id of 0 is replaced by a key above the counter; any other id is kept |
| Rows.NextCounter | app/src/main/java/com/example/appqlchitieu/model/Expense.kt:16 | the counter never decreases and covers the stored key |
| Rows.UpsertSpec | app/src/main/java/com/example/appqlchitieu/dao/ExpenseDao.kt:10-11 | REPLACE keeps keys unique, stores the new row, drops the row it clashes with, keeps every other row; the size grows by one exactly when the key was new |
| Rows.UpsertFreshAppends | app/src/main/java/com/example/appqlchitieu/dao/ExpenseDao.kt:10-11 | a key above every stored key appends the row at the end |
| Rows.OverwriteSpec | app/src/main/java/com/example/appqlchitieu/dao/ExpenseDao.kt:13-14 | `@Update` keeps keys unique and replaces exactly the row with the key |
| Rows.RemoveSpec | app/src/main/java/com/example/appqlchitieu/dao/ExpenseDao.kt:16-17 | `@Delete` removes exactly the row with the key and keeps every other row |
| Rows.InsertOrAbortSpec | app/src/main/java/com/example/appqlchitieu/dao/UserDao.kt:10-11 | a plain `@Insert` fails exactly on a key clash; otherwise it appends the row |
| Rows.SortDesc | app/src/main/java/com/example/appqlchitieu/dao/ExpenseDao.kt:20-21 | `ORDER BY ... DESC` yields a list of the same length that is sorted |
| Rows.SortDescPermutation | app/src/main/java/com/example/appqlchitieu/dao/ExpenseDao.kt:20-21 | the sort is a permutation of its input |
| Rows.SortDescStable | app/src/main/java/com/example/appqlchitieu/dao/ExpenseDao.kt:20-21 | rows that tie on the sort key keep their storage order |
| Rows.FilterSortDesc | app/src/main/java/com/example/appqlchitieu/view/TransactionScreen.kt:84-92 | filtering before or after the sort gives the same list |
| Rows.FirstWhere | app/src/main/java/com/example/appqlchitieu/dao/UserDao.kt:13-14 | `LIMIT 1`: the first matching row in storage order, none exactly when no row matches |
| ExpenseDao.AllExpenses | app/src/main/java/com/example/appqlchitieu/dao/ExpenseDao.kt:20-21 | exactly the user's rows, each as often as stored, newest first |
| ExpenseDao.AllExpensesOnce | app/src/main/java/com/example/appqlchitieu/dao/ExpenseDao.kt:23-24 | exactly the user's rows |
| ExpenseDao.ExpenseById | app/src/main/java/com/example/appqlchitieu/dao/ExpenseDao.kt:27-28 | a row with that id owned by the user, none exactly when the user owns no such row |
| ExpenseDao.ExpensesByCategory | app/src/main/java/com/example/appqlchitieu/dao/ExpenseDao.kt:31-36 | exactly the user's rows of that category, each as often as stored, newest first |
| ExpenseDao.ExpensesByDateRange | app/src/main/java/com/example/appqlchitieu/dao/ExpenseDao.kt:39-44 | exactly the user's rows dated between start and end inclusive, each as often as stored, newest first |
| ExpenseDao.TotalOfKind | app/src/main/java/com/example/appqlchitieu/dao/ExpenseDao.kt:47-52 | SQL `SUM`: NULL exactly when the user has no row of the type, otherwise the sum of its amounts |
| ExpenseDao.SumOfKind | app/src/main/java/com/example/appqlchitieu/dao/ExpenseDao.kt:47-52 | the sum of the user's amounts of one type; stated by `SumOfKindAppend` |
| ExpenseDao.TotalExpense | app/src/main/java/com/example/appqlchitieu/dao/ExpenseDao.kt:47-48 | `TotalOfKind` for type "expense" |
| ExpenseDao.TotalIncome | app/src/main/java/com/example/appqlchitieu/dao/ExpenseDao.kt:51-52 | `TotalOfKind` for type "income" |
| ExpenseDao.CountByCategory | app/src/main/java/com/example/appqlchitieu/dao/ExpenseDao.kt:55-56 | the number of the user's rows of that category; positive exactly when such a row exists |
| ExpenseDao.SumOfKindAppend | app/src/main/java/com/example/appqlchitieu/dao/ExpenseDao.kt:47-52 | a new row of the user and type adds its amount to the sum, any other row adds nothing |
| ExpenseDao.ExpenseByIdOtherUser | app/src/main/java/com/example/appqlchitieu/dao/ExpenseDao.kt:27-28 | another user's row is never found by id |
| ExpenseDao.ExpenseByIdOwner | app/src/main/java/com/example/appqlchitieu/dao/ExpenseDao.kt:27-28 | the owner always finds a stored row by its id |
| ExpenseDao.SameDateKeepsStorageOrder | app/src/main/java/com/example/appqlchitieu/dao/ExpenseDao.kt:20-21 | rows with the same date are listed in storage order |
| WalletDao.AllWallets | app/src/main/java/com/example/appqlchitieu/database/AppDatabase.kt:20-24 | exactly the user's wallets |
| WalletDao.WalletById | app/src/main/java/com/example/appqlchitieu/database/AppDatabase.kt:27-28 | a wallet with that id owned by the user, none exactly when there is none |
| WalletDao.ApplyDelta | app/src/main/java/com/example/appqlchitieu/database/AppDatabase.kt:31-37 | the hit wallet (same owner and id) gains the delta; every other field of every row and every other row stay |
| WalletDao.ApplyDeltaTwice | app/src/main/java/com/example/appqlchitieu/database/AppDatabase.kt:31-37 | two deltas on one wallet equal one delta of their sum |
| WalletDao.ApplyDeltaZero | app/src/main/java/com/example/appqlchitieu/database/AppDatabase.kt:31-37 | a zero delta changes nothing |
| WalletDao.ApplyDeltaKeepsKeys | app/src/main/java/com/example/appqlchitieu/database/AppDatabase.kt:31-37 | the update keeps the keys unique and within the counter |
| WalletDao.WalletByIdOtherUser | app/src/main/java/com/example/appqlchitieu/database/AppDatabase.kt:27-28 | another user's wallet is never found by id |
| CategoryDao.AllCategories | app/src/main/java/com/example/appqlchitieu/dao/CategoryDao.kt:20-24 | exactly the user's categories |
| CategoryDao.CategoriesByType | app/src/main/java/com/example/appqlchitieu/dao/CategoryDao.kt:27-28 | exactly the user's categories of that type |
| CategoryDao.CountAllIsListSize | app/src/main/java/com/example/appqlchitieu/dao/CategoryDao.kt:31-32 | `countAll` equals the size of the listed categories |
| CategoryDao.CountAll | app/src/main/java/com/example/appqlchitieu/dao/CategoryDao.kt:31-32 | `COUNT(*)` of the user's categories; stated by `CountAllIsListSize` |
| CategoryDao.InsertOne | app/src/main/java/com/example/appqlchitieu/dao/CategoryDao.kt:34-35 | one ABORT insert of the list; stated by `InsertOneSpec` |
| CategoryDao.InsertAll | app/src/main/java/com/example/appqlchitieu/dao/CategoryDao.kt:34-35 | the whole list or nothing; stated by `InsertAllAppends`, `InsertAllFreshSucceeds` and `InsertAllClash` |
| CategoryDao.InsertOneSpec | app/src/main/java/com/example/appqlchitieu/dao/CategoryDao.kt:34-35 | one insert of the list fails exactly on a stored id; otherwise it appends the row and keeps keys unique |
| CategoryDao.InsertAllAppends | app/src/main/java/com/example/appqlchitieu/dao/CategoryDao.kt:34-35 | a successful `insertMany` appends the rows in list order, each with its own fields and id |
| CategoryDao.InsertAllFreshSucceeds | app/src/main/java/com/example/appqlchitieu/dao/CategoryDao.kt:34-35 | a list whose ids are all 0 always inserts |
| CategoryDao.InsertAllClash | app/src/main/java/com/example/appqlchitieu/dao/CategoryDao.kt:34-35 | a stored id on any entry of the list aborts the whole insert |
| UserDao.UserByEmail | app/src/main/java/com/example/appqlchitieu/dao/UserDao.kt:13-14 | a user with that email, none exactly when there is none (also `getByEmail`, lines 35-36) |
| UserDao.Login | app/src/main/java/com/example/appqlchitieu/dao/UserDao.kt:16-17 | a user whose email and password both match, none exactly when no row matches both |
| UserDao.UserById | app/src/main/java/com/example/appqlchitieu/dao/UserDao.kt:22-23 | a user with that id, none exactly when there is none |
| UserDao.LoggedInUser | app/src/main/java/com/example/appqlchitieu/dao/UserDao.kt:32-33 | a flagged user, none exactly when nobody is flagged |
| UserDao.SetLoggedIn | app/src/main/java/com/example/appqlchitieu/dao/UserDao.kt:26-27 | the user with that id is flagged, every other flag and every other field stay |
| UserDao.LogoutAll | app/src/main/java/com/example/appqlchitieu/dao/UserDao.kt:29-30 | every flag is cleared and nothing else changes |
| UserDao.LogoutAllClears | app/src/main/java/com/example/appqlchitieu/dao/UserDao.kt:29-33 | after `logoutAll` nobody is logged in |
| UserDao.LogoutThenLogin | app/src/main/java/com/example/appqlchitieu/dao/UserDao.kt:26-33 | logout then login flags exactly that user, and `getLoggedInUser` returns them |
| UserDao.SetLoggedInKeepsOthers | app/src/main/java/com/example/appqlchitieu/dao/UserDao.kt:26-27 | a user already logged in stays logged in after another user's login |
| BudgetDao.AllBudgets | app/src/main/java/com/example/appqlchitieu/dao/BudgetDao.kt:20-25 | exactly the user's budgets, each as often as stored, latest start first |
| BudgetDao.AllBudgetsOnce | app/src/main/java/com/example/appqlchitieu/dao/BudgetDao.kt:27-28 | exactly the user's budgets |
| BudgetDao.BudgetsByCategory | app/src/main/java/com/example/appqlchitieu/dao/BudgetDao.kt:32-37 | exactly the user's budgets of that category, each as often as stored, latest start first |
| BudgetDao.ActiveBudgets | app/src/main/java/com/example/appqlchitieu/dao/BudgetDao.kt:40-47 | exactly the user's budgets whose inclusive range covers now, each as often as stored, earliest end first |
| BudgetDao.InvertedNeverActive | app/src/main/java/com/example/appqlchitieu/dao/BudgetDao.kt:43-44 | a budget that starts after it ends is never active |
| BudgetDao.AllBudgetsLatestFirst | app/src/main/java/com/example/appqlchitieu/dao/BudgetDao.kt:20-25 | read pairwise, no later budget starts after an earlier one |
| TransactionRepository.TransactionRepository.AddExpenseAndAffectWallet | app/src/main/java/com/example/appqlchitieu/repository/TransactionRepository.kt:20-34 | all or nothing: on commit the state is `AddEffect` (row stored, wallet moved); on a fault the state is unchanged |
| TransactionRepository.SignedDelta | app/src/main/java/com/example/appqlchitieu/repository/TransactionRepository.kt:26 | the balance change of a row: minus its amount for type "expense", plus it for any other type; `SignPrefixMatchesDelta` relates it to the list's sign |
| TransactionRepository.AddEffect | app/src/main/java/com/example/appqlchitieu/repository/TransactionRepository.kt:20-34 | the committed state of one add: the row stored by REPLACE and the signed delta applied; its properties are `AddEffectExpenses` and `AddEffectWallets` |
| TransactionRepository.AddEffectExpenses | app/src/main/java/com/example/appqlchitieu/repository/TransactionRepository.kt:23 | the add keeps the database valid and stores the row, replacing only a row with the same id |
| TransactionRepository.AddEffectWallets | app/src/main/java/com/example/appqlchitieu/repository/TransactionRepository.kt:26-32 | only the owner's wallet with that id moves: by minus the amount for an expense, plus it otherwise; the other tables stay |
| TransactionRepository.AddEffectWithoutWallet | app/src/main/java/com/example/appqlchitieu/repository/TransactionRepository.kt:20-34 | with no matching wallet the row is still stored and no balance moves |
| TransactionRepository.ReplayBalances | app/src/main/java/com/example/appqlchitieu/repository/TransactionRepository.kt:20-34 | after a sequence of adds each wallet's balance is its start plus the signed amounts of the adds that name it |
| TransactionRepository.ReplayStaysValid | app/src/main/java/com/example/appqlchitieu/repository/TransactionRepository.kt:20-34 | a sequence of adds keeps keys unique and within the counters |
| TransactionRepository.AddThenDeleteKeepsDelta | app/src/main/java/com/example/appqlchitieu/dao/ExpenseDao.kt:16-17 | deleting an added row gives nothing back: the wallet keeps the moved balance |
| WalletRepository.TotalBalanceNoWallets | app/src/main/java/com/example/appqlchitieu/repository/WalletRepository.kt:17-18 | a user without wallets has total 0 |
| WalletRepository.TotalBalanceIgnoresOthers | app/src/main/java/com/example/appqlchitieu/repository/WalletRepository.kt:17-18 | another user's wallet, anywhere in the table, does not change the total |
| WalletRepository.TotalBalanceOtherUsersDelta | app/src/main/java/com/example/appqlchitieu/repository/WalletRepository.kt:17-18 | a delta on another user's wallet does not change the total |
| WalletRepository.ApplyDeltaMissing | app/src/main/java/com/example/appqlchitieu/repository/WalletRepository.kt:27-28 | a delta that hits no wallet changes nothing |
| WalletRepository.TotalBalanceAfterDelta | app/src/main/java/com/example/appqlchitieu/repository/WalletRepository.kt:17-28 | a delta on one of the user's wallets moves the total by exactly the delta, otherwise by nothing |
| WalletRepository.TotalBalance | app/src/main/java/com/example/appqlchitieu/repository/WalletRepository.kt:17-18 | the sum of the balances of the user's wallets; its properties are the `TotalBalance...` lemmas |
| WalletRepository.WalletRepository.Insert | app/src/main/java/com/example/appqlchitieu/repository/WalletRepository.kt:20 | hands the wallet to the DAO's REPLACE insert |
| WalletRepository.WalletRepository.Update | app/src/main/java/com/example/appqlchitieu/repository/WalletRepository.kt:21 | hands the wallet to the DAO's update |
| WalletRepository.WalletRepository.Delete | app/src/main/java/com/example/appqlchitieu/repository/WalletRepository.kt:22 | hands the wallet to the DAO's delete |
| WalletRepository.WalletRepository.UpdateBalanceDelta | app/src/main/java/com/example/appqlchitieu/repository/WalletRepository.kt:27-28 | hands the delta to the DAO |
| ExpenseRepository.TotalExpenseOrZero | app/src/main/java/com/example/appqlchitieu/repository/ExpenseRepository.kt:39-40 | `getTotalExpense ?: 0.0` is the sum of the user's expense amounts |
| ExpenseRepository.TotalIncomeOrZero | app/src/main/java/com/example/appqlchitieu/repository/ExpenseRepository.kt:42-43 | `getTotalIncome ?: 0.0` is the sum of the user's income amounts |
| ExpenseRepository.TotalOrZero | app/src/main/java/com/example/appqlchitieu/repository/ExpenseRepository.kt:39-43 | a NULL sum reads as 0, otherwise the sum of the user's amounts of the type |
| ExpenseRepository.ExpensesBetween | app/src/main/java/com/example/appqlchitieu/repository/ExpenseRepository.kt:46-47 | exactly the user's rows inside the inclusive window |
| ExpenseRepository.ExpensesBetweenIsRangeQuery | app/src/main/java/com/example/appqlchitieu/repository/ExpenseRepository.kt:35-47 | filtering the newest-first list gives the same rows as the date-range query, each as often, both newest first; with ties kept in storage order, the same list |
| ExpenseRepository.TotalBetweenSpec | app/src/main/java/com/example/appqlchitieu/repository/ExpenseRepository.kt:49-55 | a windowed total is the sum over the user's rows of that type inside the window |
| ExpenseRepository.TotalBetween | app/src/main/java/com/example/appqlchitieu/repository/ExpenseRepository.kt:49-55 | the sum of one type over the window; stated by `TotalBetweenSpec` |
| ExpenseRepository.TotalExpenseBetween | app/src/main/java/com/example/appqlchitieu/repository/ExpenseRepository.kt:49-51 | `TotalBetween` for type "expense"; stated by `EmptyWindow` and `WindowTotalsSplit` |
| ExpenseRepository.TotalIncomeBetween | app/src/main/java/com/example/appqlchitieu/repository/ExpenseRepository.kt:53-55 | `TotalBetween` for type "income"; stated by `EmptyWindow` and `WindowTotalsSplit` |
| ExpenseRepository.EmptyWindow | app/src/main/java/com/example/appqlchitieu/repository/ExpenseRepository.kt:46-55 | a window whose start is after its end holds no row, and both totals are 0 |
| ExpenseRepository.WindowTotalsSplit | app/src/main/java/com/example/appqlchitieu/repository/ExpenseRepository.kt:49-55 | the two totals add up to the window's expense and income rows; other types are counted in neither |
| BudgetViewModel.AllBudgetsFor | app/src/main/java/com/example/appqlchitieu/viewmodel/BudgetViewModel.kt:21-25 | the session user's budgets, or none when there is no signed-in user with a positive id |
| BudgetViewModel.ByCategoryFor | app/src/main/java/com/example/appqlchitieu/viewmodel/BudgetViewModel.kt:27-31 | the user's budgets of the category; none for a missing user (`-1`) or a non-positive id |
| BudgetViewModel.ActiveNowFor | app/src/main/java/com/example/appqlchitieu/viewmodel/BudgetViewModel.kt:33-37 | the user's budgets active now; none for a missing user or a non-positive id |
| BudgetViewModel.NoBudgetOfNonPositiveOwner | app/src/main/java/com/example/appqlchitieu/viewmodel/BudgetViewModel.kt:17-37 | every listed budget is stored and belongs to a positive user id |
| BudgetViewModel.SessionId | app/src/main/java/com/example/appqlchitieu/viewmodel/BudgetViewModel.kt:28 | the session user id, or -1 without one |
| BudgetViewModel.SignedIn | app/src/main/java/com/example/appqlchitieu/viewmodel/BudgetViewModel.kt:23 | a session user with a positive id; used by the three queries' contracts |
| BudgetScreen.SpentSpec | app/src/main/java/com/example/appqlchitieu/view/BudgetScreen.kt:112-118 | `spent` sums exactly the expense rows of the budget's category dated inside its range |
| BudgetScreen.Spent | app/src/main/java/com/example/appqlchitieu/view/BudgetScreen.kt:112-118 | the chained filters and sum of a card; stated by `SpentSpec` |
| BudgetScreen.Window | app/src/main/java/com/example/appqlchitieu/view/BudgetScreen.kt:64-68 | the user's rows within a year and a day of now; stated by `SpentOnScreen` |
| BudgetScreen.SpentOnScreen | app/src/main/java/com/example/appqlchitieu/view/BudgetScreen.kt:64-68 | a card sums the user's counting rows that also lie inside the loaded window |
| BudgetScreen.SpentInsideWindow | app/src/main/java/com/example/appqlchitieu/view/BudgetScreen.kt:64-68 | a budget inside the window sees every one of the user's counting rows |
| BudgetScreen.SpentOutsideWindow | app/src/main/java/com/example/appqlchitieu/view/BudgetScreen.kt:64-68 | a budget wholly outside the window shows 0 spent |
| BudgetScreen.Divisor | app/src/main/java/com/example/appqlchitieu/view/BudgetScreen.kt:220 | the limit, floored at 1 |
| BudgetScreen.Ratio | app/src/main/java/com/example/appqlchitieu/view/BudgetScreen.kt:221 | the progress value lies in [0, 1] |
| BudgetScreen.QuotientAtLeast | app/src/main/java/com/example/appqlchitieu/view/BudgetScreen.kt:221-226 | comparing `spent / d` with a fraction is comparing spent with that fraction of d |
| BudgetScreen.BandOf | app/src/main/java/com/example/appqlchitieu/view/BudgetScreen.kt:222-226 | red from 1, amber from 0.8, green below; stated by `BandSpec` |
| BudgetScreen.BandSpec | app/src/main/java/com/example/appqlchitieu/view/BudgetScreen.kt:220-226 | red exactly when spent reaches the floored limit, amber from 80% of it, green below |
| BudgetScreen.Remain | app/src/main/java/com/example/appqlchitieu/view/BudgetScreen.kt:268-272 | "over" exactly when spent exceeds the limit; the amounts shown add back up to the limit or to spent |
| BudgetScreen.RemainAndBand | app/src/main/java/com/example/appqlchitieu/view/BudgetScreen.kt:220-272 | for a limit of at least 1, "over" implies red, and red with "remaining" happens exactly at the limit |
| BudgetScreen.RemainAndBandBelowOne | app/src/main/java/com/example/appqlchitieu/view/BudgetScreen.kt:220-272 | with limit 0 and 0.9 spent the text says over while the bar is amber |
| BudgetScreen.InitText | app/src/main/java/com/example/appqlchitieu/view/BudgetScreen.kt:289-291 | the first amount text is digits only, empty exactly when the limit is not positive, and otherwise reads as the limit's whole part capped at 9223372036854775807 |
| BudgetScreen.Confirm | app/src/main/java/com/example/appqlchitieu/view/BudgetScreen.kt:378-391 | a budget is passed on exactly when amount > 0, a category is set and start <= end; it keeps the id and user and takes the typed fields |
| BudgetScreen.InitTextRoundTrip | app/src/main/java/com/example/appqlchitieu/view/BudgetScreen.kt:289-391 | saving an untouched dialog returns the budget it was opened with, for a whole limit from 1 up to 9223372036854775807 |
| BudgetScreen.InitTextSaturates | app/src/main/java/com/example/appqlchitieu/view/BudgetScreen.kt:289-391 | saving an untouched dialog whose limit is past 9223372036854775807 stores the capped limit, not the budget it was opened with |
| BudgetScreen.AddDraft | app/src/main/java/com/example/appqlchitieu/view/BudgetScreen.kt:154-160 | the draft has id 0, the user, no limit, today to the end of the month, and the id of the first category of any type (0 when there is none) |
| BudgetScreen.DraftNeedsAmount | app/src/main/java/com/example/appqlchitieu/view/BudgetScreen.kt:151-170 | an untouched add dialog cannot be saved |
| BudgetScreen.EditDialog.constructor | app/src/main/java/com/example/appqlchitieu/view/BudgetScreen.kt:288-292 | the dialog starts from the budget's category, amount text and dates |
| BudgetScreen.EditDialog.TypeAmount | app/src/main/java/com/example/appqlchitieu/view/BudgetScreen.kt:343 | the field keeps only the digits typed |
| BudgetScreen.EditDialog.PickCategory | app/src/main/java/com/example/appqlchitieu/view/BudgetScreen.kt:327-334 | picks one of the dialog's categories of type "expense" and sets its id only |
| BudgetScreen.EditDialog.PickStart | app/src/main/java/com/example/appqlchitieu/view/BudgetScreen.kt:357 | sets the start date only |
| BudgetScreen.EditDialog.PickEnd | app/src/main/java/com/example/appqlchitieu/view/BudgetScreen.kt:371 | sets the end date only |
| BudgetScreen.EditDialog.Save | app/src/main/java/com/example/appqlchitieu/view/BudgetScreen.kt:378-391 | returns `Confirm` of the dialog's fields |
| BudgetScreen.Handlers.Add | app/src/main/java/com/example/appqlchitieu/view/BudgetScreen.kt:165 | a REPLACE insert of the confirmed budget |
| BudgetScreen.Handlers.Edit | app/src/main/java/com/example/appqlchitieu/view/BudgetScreen.kt:181 | overwrites the target's row with the edited budget under the target's id |
| BudgetScreen.Handlers.Delete | app/src/main/java/com/example/appqlchitieu/view/BudgetScreen.kt:197 | removes the target's row |
| BudgetScreen.EditRewritesTarget | app/src/main/java/com/example/appqlchitieu/view/BudgetScreen.kt:173-186 | after an edit the table holds the edited budget under the target id and every other budget as it was |
| MonthCursor.PrevMonth | app/src/main/java/com/example/appqlchitieu/view/StatsScreen.kt:117-119 | the left arrow goes to the month just before, with the month number in 0..11 |
| MonthCursor.NextMonth | app/src/main/java/com/example/appqlchitieu/view/StatsScreen.kt:123-125 | the right arrow goes to the month just after, with the month number in 0..11 |
| MonthCursor.MonthIndexInjective | app/src/main/java/com/example/appqlchitieu/view/StatsScreen.kt:117-125 | year and month number are fixed by the month index |
| MonthCursor.PrevNextInverse | app/src/main/java/com/example/appqlchitieu/view/TransactionScreen.kt:117-125 | the two arrows undo each other |
| MonthCursor.Cursor.constructor | app/src/main/java/com/example/appqlchitieu/view/TransactionScreen.kt:69-70 | the cursor starts at the given year and month |
| MonthCursor.Cursor.Previous | app/src/main/java/com/example/appqlchitieu/view/TransactionScreen.kt:117-119 | the year and month become `PrevMonth` of the old ones |
| MonthCursor.Cursor.Next | app/src/main/java/com/example/appqlchitieu/view/TransactionScreen.kt:123-125 | the year and month become `NextMonth` of the old ones |
| StatsScreen.Filtered | app/src/main/java/com/example/appqlchitieu/view/StatsScreen.kt:75-78 | exactly the loaded rows of the chip's type |
| StatsScreen.GroupKeys | app/src/main/java/com/example/appqlchitieu/view/StatsScreen.kt:81 | each category id of the rows exactly once |
| StatsScreen.FindCategory | app/src/main/java/com/example/appqlchitieu/view/StatsScreen.kt:84-85 | a category with that id, none exactly when there is none |
| StatsScreen.Pairs | app/src/main/java/com/example/appqlchitieu/view/StatsScreen.kt:84-85 | each bar pairs a known category with its group's total |
| StatsScreen.ByCategory | app/src/main/java/com/example/appqlchitieu/view/StatsScreen.kt:80-87 | the bars are sorted by total, largest first |
| StatsScreen.ByCategoryBars | app/src/main/java/com/example/appqlchitieu/view/StatsScreen.kt:80-87 | every bar is a known category used by a row of the type, and its total sums exactly those rows |
| StatsScreen.PairsCount | app/src/main/java/com/example/appqlchitieu/view/StatsScreen.kt:81-85 | over distinct keys a category gets one bar when it is a known key, none otherwise |
| StatsScreen.ByCategoryOnce | app/src/main/java/com/example/appqlchitieu/view/StatsScreen.kt:80-87 | a category has one bar exactly when it is known and used by a row of the type |
| StatsScreen.PairsSum | app/src/main/java/com/example/appqlchitieu/view/StatsScreen.kt:80-89 | the bars of distinct keys add up the rows whose category is a known key |
| StatsScreen.TotalIsKnownRows | app/src/main/java/com/example/appqlchitieu/view/StatsScreen.kt:89 | the total is the sum of the rows of the type whose category is known; rows of a deleted category drop out |
| StatsScreen.Total | app/src/main/java/com/example/appqlchitieu/view/StatsScreen.kt:89 | the sum of the bar totals; stated by `TotalIsKnownRows` |
| StatsScreen.GroupTotal | app/src/main/java/com/example/appqlchitieu/view/StatsScreen.kt:82 | the sum of one group's amounts; stated by `ByCategoryBars` |
| StatsScreen.ChartShown | app/src/main/java/com/example/appqlchitieu/view/StatsScreen.kt:157 | the chart shows when the total is positive and some bar exists; used by `ChartHeights` |
| StatsScreen.Shown | app/src/main/java/com/example/appqlchitieu/view/StatsScreen.kt:163 | at most the first 12 bars, all of them when there are no more |
| StatsScreen.MoreLabel | app/src/main/java/com/example/appqlchitieu/view/StatsScreen.kt:220-227 | "+N" appears exactly when more than 12 bars exist, and N is the number left out |
| StatsScreen.MaxTotal | app/src/main/java/com/example/appqlchitieu/view/StatsScreen.kt:162 | the largest total, reached by some bar |
| StatsScreen.Frac | app/src/main/java/com/example/appqlchitieu/view/StatsScreen.kt:174 | a bar height lies in [0, 1] |
| StatsScreen.MaxOfSorted | app/src/main/java/com/example/appqlchitieu/view/StatsScreen.kt:86-162 | in the sorted bars the largest total is the first one |
| StatsScreen.FracBelowMax | app/src/main/java/com/example/appqlchitieu/view/StatsScreen.kt:174 | a value within a positive maximum is drawn at its share, or 0 when not positive |
| StatsScreen.ChartHeights | app/src/main/java/com/example/appqlchitieu/view/StatsScreen.kt:162-174 | when the chart shows, the first bar is full height and each shown bar is drawn at its share |
| TransactionScreen.TabRows | app/src/main/java/com/example/appqlchitieu/view/TransactionScreen.kt:86-90 | exactly the month's rows the tab selects |
| TransactionScreen.Listed | app/src/main/java/com/example/appqlchitieu/view/TransactionScreen.kt:84-92 | the tab's list is sorted newest first |
| TransactionScreen.ListedSpec | app/src/main/java/com/example/appqlchitieu/view/TransactionScreen.kt:84-92 | the list is a permutation of the tab's rows, so exactly the month's rows under the tab |
| TransactionScreen.AllTabKeepsQueryOrder | app/src/main/java/com/example/appqlchitieu/view/TransactionScreen.kt:84-92 | the ALL tab shows the date-range query's list unchanged |
| TransactionScreen.TabListsAddUp | app/src/main/java/com/example/appqlchitieu/view/TransactionScreen.kt:95-96 | the expense and income tabs add up to the header totals |
| TransactionScreen.MonthTotal | app/src/main/java/com/example/appqlchitieu/view/TransactionScreen.kt:95-96 | the month's sum of one type; stated by `TabListsAddUp` |
| TransactionScreen.SignPrefix | app/src/main/java/com/example/appqlchitieu/view/TransactionScreen.kt:214-216 | "-" exactly for an expense, "+" otherwise |
| TransactionScreen.SignPrefixMatchesDelta | app/src/main/java/com/example/appqlchitieu/view/TransactionScreen.kt:214-216 | for a positive amount the sign shown is the sign of the wallet change the add made |
| TransactionScreen.Handlers.Delete | app/src/main/java/com/example/appqlchitieu/view/TransactionScreen.kt:198 | removes the row; the wallets are unchanged |
| TransactionAddScreen.Check | app/src/main/java/com/example/appqlchitieu/view/TransactionAddScreen.kt:307-326 | errors in order (amount, category, wallet), each exactly when it applies; an accepted row has id 0, the user, the positive amount, the picks, the date and type, and the note or else the category name as title |
| TransactionAddScreen.TitleNotBlank | app/src/main/java/com/example/appqlchitieu/view/TransactionAddScreen.kt:320 | the title is blank only when both the note and the category name are |
| TransactionAddScreen.Title | app/src/main/java/com/example/appqlchitieu/view/TransactionAddScreen.kt:320 | the note, or the category name for a blank note; stated by `Check` and `TitleNotBlank` |
| TransactionAddScreen.SavedRowIsAppended | app/src/main/java/com/example/appqlchitieu/view/TransactionAddScreen.kt:318-330 | a saved row is appended under the next AUTOINCREMENT id |
| TransactionAddScreen.SavedRowMovesWallet | app/src/main/java/com/example/appqlchitieu/view/TransactionAddScreen.kt:318-330 | saving moves the picked wallet by the signed amount and no other wallet |
| TransactionAddScreen.AddForm.constructor | app/src/main/java/com/example/appqlchitieu/view/TransactionAddScreen.kt:65 | the form starts on type "expense" with nothing picked |
| TransactionAddScreen.AddForm.SelectType | app/src/main/java/com/example/appqlchitieu/view/TransactionAddScreen.kt:102-147 | a change of type drops the picked category; tapping the type already selected keeps it |
| TransactionAddScreen.AddForm.PickCategory | app/src/main/java/com/example/appqlchitieu/view/TransactionAddScreen.kt:202-209 | picks one of the user's categories of the selected type |
| TransactionAddScreen.AddForm.PickWallet | app/src/main/java/com/example/appqlchitieu/view/TransactionAddScreen.kt:248-253 | picks one of the user's wallets |
| TransactionAddScreen.AddForm.TypeNote | app/src/main/java/com/example/appqlchitieu/view/TransactionAddScreen.kt:263 | sets the note and keeps every other field |
| TransactionAddScreen.AddForm.PickDate | app/src/main/java/com/example/appqlchitieu/view/TransactionAddScreen.kt:94 | sets the date and keeps every other field |
| TransactionAddScreen.AddForm.Save | app/src/main/java/com/example/appqlchitieu/view/TransactionAddScreen.kt:307-332 | returns `Check`; commits exactly an accepted row without a fault, as `AddEffect`; otherwise writes nothing; a saved row's category has its type and user |
| TransactionUpdateScreen.LoadedCategory | app/src/main/java/com/example/appqlchitieu/view/TransactionUpdateScreen.kt:93-96 | the user's category of the row's type with the row's category id, none exactly when there is none |
| TransactionUpdateScreen.CheckEdit | app/src/main/java/com/example/appqlchitieu/view/TransactionUpdateScreen.kt:316-335 | nothing without a loaded row; title/amount error, then category/wallet error, each exactly when it applies; an edit keeps id and user and takes the trimmed title and the form's fields |
| TransactionUpdateScreen.EditIdempotent | app/src/main/java/com/example/appqlchitieu/view/TransactionUpdateScreen.kt:316-335 | saving the edited row again unchanged gives the same row |
| TransactionUpdateScreen.EditReplacesRow | app/src/main/java/com/example/appqlchitieu/view/TransactionUpdateScreen.kt:336 | the edited row takes the loaded row's place; every other row stays |
| TransactionUpdateScreen.TypeChangeKeepsCategory | app/src/main/java/com/example/appqlchitieu/view/TransactionUpdateScreen.kt:168-174 | an income edit can keep an expense category, and reloading that row then finds no category |
| TransactionUpdateScreen.EditForm.Load | app/src/main/java/com/example/appqlchitieu/view/TransactionUpdateScreen.kt:83-103 | loads the user's row by id into the form, with its category and wallet; a missing row sets not-found and leaves the fields |
| TransactionUpdateScreen.EditForm.constructor | app/src/main/java/com/example/appqlchitieu/view/TransactionUpdateScreen.kt:62-78 | the form starts with no loaded row, no message, an empty title, type "expense", the current time, and no category or wallet |
| TransactionUpdateScreen.EditForm.PickCategory | app/src/main/java/com/example/appqlchitieu/view/TransactionUpdateScreen.kt:224-229 | picks one of the user's categories of the selected type; every other field is kept |
| TransactionUpdateScreen.EditForm.PickWallet | app/src/main/java/com/example/appqlchitieu/view/TransactionUpdateScreen.kt:264-269 | picks one of the user's wallets; every other field is kept |
| TransactionUpdateScreen.EditForm.SelectType | app/src/main/java/com/example/appqlchitieu/view/TransactionUpdateScreen.kt:168-174 | a type change keeps the picked category |
| TransactionUpdateScreen.EditForm.TypeTitle | app/src/main/java/com/example/appqlchitieu/view/TransactionUpdateScreen.kt:278 | sets the title and keeps every other field |
| TransactionUpdateScreen.EditForm.PickDate | app/src/main/java/com/example/appqlchitieu/view/TransactionUpdateScreen.kt:119 | sets the date and keeps every other field |
| TransactionUpdateScreen.EditForm.Save | app/src/main/java/com/example/appqlchitieu/view/TransactionUpdateScreen.kt:313-336 | clears the not-found message and keeps the form's fields; returns `CheckEdit`; an edit overwrites the row by id and nothing else; wallets keep their balances |
| CategoryManageScreen.Filtered | app/src/main/java/com/example/appqlchitieu/view/CategoryManageScreen.kt:59-65 | all categories for an empty query, else exactly those whose lowered name or type contains it |
| CategoryManageScreen.FilteredIdempotent | app/src/main/java/com/example/appqlchitieu/view/CategoryManageScreen.kt:59-65 | filtering twice with the same query changes nothing |
| CategoryManageScreen.BlankQueryShowsAll | app/src/main/java/com/example/appqlchitieu/view/CategoryManageScreen.kt:60-61 | a blank search shows every category |
| CategoryManageScreen.ExpenseSection | app/src/main/java/com/example/appqlchitieu/view/CategoryManageScreen.kt:67 | exactly the listed categories of type "expense" |
| CategoryManageScreen.IncomeSection | app/src/main/java/com/example/appqlchitieu/view/CategoryManageScreen.kt:68 | exactly the listed categories of type "income" |
| CategoryManageScreen.EmptyMessage | app/src/main/java/com/example/appqlchitieu/view/CategoryManageScreen.kt:67-68 | both sections are empty exactly when no listed category is of either type |
| CategoryManageScreen.TypeNameQueryListsSection | app/src/main/java/com/example/appqlchitieu/view/CategoryManageScreen.kt:59-68 | searching "expense" lists every expense category |
| CategoryManageScreen.NameToSave | app/src/main/java/com/example/appqlchitieu/view/CategoryManageScreen.kt:335-338 | a blank name is refused; a saved name is trimmed and not blank |
| CategoryManageScreen.NewCategory | app/src/main/java/com/example/appqlchitieu/view/CategoryManageScreen.kt:229-236 | the new row has id 0, the user, the type and the trimmed name, or none for a blank name |
| CategoryManageScreen.EditedCategory | app/src/main/java/com/example/appqlchitieu/view/CategoryManageScreen.kt:247-253 | the edit keeps id and user and takes the type and the trimmed name, or none for a blank name |
| CategoryManageScreen.Handlers.Add | app/src/main/java/com/example/appqlchitieu/view/CategoryManageScreen.kt:229-236 | saves exactly a non-blank name, appended under the next id; otherwise writes nothing |
| CategoryManageScreen.Handlers.Edit | app/src/main/java/com/example/appqlchitieu/view/CategoryManageScreen.kt:247-253 | saves exactly a non-blank name, overwriting the target's row; otherwise writes nothing |
| CategoryManageScreen.Handlers.Delete | app/src/main/java/com/example/appqlchitieu/view/CategoryManageScreen.kt:147-157 | deletes exactly when none of the user's rows names the category; otherwise writes nothing |
| CategoryManageScreen.DeleteLeavesNoDangling | app/src/main/java/com/example/appqlchitieu/view/CategoryManageScreen.kt:176-186 | a guarded delete leaves every one of the user's rows naming a stored category |
| WalletScreen.ShownTotal | app/src/main/java/com/example/appqlchitieu/view/WalletScreen.kt:59 | the running sum over the list is the sum of the balances |
| WalletScreen.HeaderTotal | app/src/main/java/com/example/appqlchitieu/view/WalletScreen.kt:59 | the header total is the repository's total balance |
| WalletScreen.TotalAppend | app/src/main/java/com/example/appqlchitieu/repository/WalletRepository.kt:17-18 | appending a wallet adds its balance to its owner's total only |
| WalletScreen.TotalAfterOverwrite | app/src/main/java/com/example/appqlchitieu/view/WalletScreen.kt:181 | overwriting a wallet swaps its part of the total for the new row's |
| WalletScreen.TotalAfterRemove | app/src/main/java/com/example/appqlchitieu/view/WalletScreen.kt:194 | deleting a wallet takes its balance out of its owner's total |
| WalletScreen.CheckDialog | app/src/main/java/com/example/appqlchitieu/view/WalletScreen.kt:251-256 | blank name first, then unparsable balance, each exactly when it applies; otherwise the trimmed name and any parsed balance |
| WalletScreen.ConfirmedNameTrimmed | app/src/main/java/com/example/appqlchitieu/view/WalletScreen.kt:253-255 | a confirmed name is non-blank and already trimmed |
| WalletScreen.AddEffect | app/src/main/java/com/example/appqlchitieu/view/WalletScreen.kt:165-168 | the state after the add dialog's insert; stated by `AddRaisesTotal` |
| WalletScreen.AddRaisesTotal | app/src/main/java/com/example/appqlchitieu/view/WalletScreen.kt:165-168 | adding appends the wallet under the next id and raises the total by its balance |
| WalletScreen.EditMovesTotal | app/src/main/java/com/example/appqlchitieu/view/WalletScreen.kt:181 | an edit moves the total by the new balance minus the stored one |
| WalletScreen.DeleteLowersTotal | app/src/main/java/com/example/appqlchitieu/view/WalletScreen.kt:194 | a delete lowers the total by the wallet's balance |
| WalletScreen.Handlers.Add | app/src/main/java/com/example/appqlchitieu/view/WalletScreen.kt:165-168 | a confirmed dialog inserts the new wallet; otherwise nothing is written |
| WalletScreen.Handlers.Edit | app/src/main/java/com/example/appqlchitieu/view/WalletScreen.kt:181 | a confirmed dialog overwrites the wallet's name and balance; otherwise nothing is written |
| WalletScreen.Handlers.Delete | app/src/main/java/com/example/appqlchitieu/view/WalletScreen.kt:194 | removes the wallet row and nothing else |
| Text.Trim | app/src/main/java/com/example/appqlchitieu/view/WalletScreen.kt:255 | the result is no longer than the input and neither starts nor ends with whitespace |
| Text.TrimEmptyIffBlank | app/src/main/java/com/example/appqlchitieu/view/CategoryManageScreen.kt:60-61 | trimming gives the empty text exactly for blank text |
| Text.TrimIdempotent | app/src/main/java/com/example/appqlchitieu/view/WalletScreen.kt:255 | trimming twice is trimming once |
| Text.KeepDigits | app/src/main/java/com/example/appqlchitieu/view/BudgetScreen.kt:343 | the filtered text is digits only |
| Text.KeepDigitsIdempotent | app/src/main/java/com/example/appqlchitieu/view/BudgetScreen.kt:343 | filtering twice is filtering once |
| Text.DigitsOfRoundTrip | app/src/main/java/com/example/appqlchitieu/view/BudgetScreen.kt:289-291 | the decimal text of a number reads back as that number |
| Text.ParseDigits | app/src/main/java/com/example/appqlchitieu/view/BudgetScreen.kt:379 | digits parse to a non-negative number; only the empty text fails |
| Text.ParseDigitsOf | app/src/main/java/com/example/appqlchitieu/view/BudgetScreen.kt:289-379 | the printed limit parses back to itself |

## Left out

- Floating point: amounts, balances and limits are exact reals. Double
  rounding and the `Float` conversion of chart fractions are not modelled.
  The 0.8f amber threshold is the exact 0.8.
- `toDoubleOrNull()` on free text is an `Option<real>` input to the checks.
  Only the budget field, which keeps digits only, is parsed in the model.
- Text.IsDigit and Text.KeepDigits: only '0'..'9' count as digits, while
  Kotlin's `isDigit()` accepts every Unicode decimal digit.
- BudgetScreen.InitText, BudgetScreen.InitTextRoundTrip and
  BudgetScreen.InitTextSaturates: `toLong()` caps a limit at
  9223372036854775807, which the model keeps. The model then reads that
  text back as the exact 9223372036854775807, while `toDoubleOrNull()`
  rounds it to 2^63. So the round trip is promised only up to that cap.
- TransactionAddScreen.Check, TransactionUpdateScreen.CheckEdit and
  WalletScreen.CheckDialog: the parsed amount is an `Option<real>`, so it
  has no NaN or infinite value. Kotlin's `toDoubleOrNull()` accepts "NaN"
  and "Infinity", and `NaN <= 0` is false. So the add and edit screens
  accept a NaN amount, and the wallet dialog accepts a NaN or infinite
  balance. A NaN amount then makes the wallet's balance NaN through
  `updateBalanceDelta`. The model's "an accepted amount is positive" holds
  only for finite amounts.
- `lowercase()` is a function parameter of the category search. Unicode
  case mapping is not fixed.
- Flow and LiveData, coroutines, Compose state and navigation are not
  modelled. A query is a function of the tables at the moment it is read.
- Calendar arithmetic (`monthBounds`, `startOfToday`, `endOfThisMonth`, noon
  of a picked day) is an input. The clock `now` is a parameter.
- `NumberFormat` and text formatting of amounts are not modelled, except
  the digits of a whole limit (`BudgetScreen.InitText`).
- The AI chat screen, its DAO and `DatabaseProvider` are not part of this
  model.
- The pass-through wrappers are not modelled separately, because each one
  hands its arguments to the DAO unchanged. They are the `ExpenseRepository`
  insert/update/delete/getById/byCategory/byDateRange functions,
  `BudgetRepository`, `CategoryRepository`, `WalletRepository.getAllOnce`
  and `getWalletById`, and the Expense, Wallet and Category view models.
- `SessionManager` is an `Option<int>` session id. The screens' early
  return on a null user id is the caller's choice of `u`.
- SQLite leaves the order of rows with equal sort keys open. The model
  fixes it to storage order, which `ExpenseDao.SameDateKeepsStorageOrder`
  states.
- `withTransaction` is modelled by a fault parameter and a rollback
  (`Store.Store.Restore`). Crashes outside the block are not modelled.
- TransactionUpdateScreen.EditForm.Load: the load itself does not clear
  the not-found message, while the model clears it on a hit. The two agree
  for the one load per transaction id that the screen performs, starting
  from no message. `Save` clears the message on every click, as the screen
  does. The amount text the load writes into its field is not kept: the
  parsed amount is an input of `Save`.
- Wallet icons and colours are carried as fields but never checked.
