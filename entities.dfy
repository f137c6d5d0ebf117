/**
 * The five Room entities of the ledger. Amounts are exact reals (the app
 * stores `Double`), dates are epoch milliseconds, and the Kotlin field
 * `type` is called `kind` because `type` is a Dafny keyword.
 */
module Entities {
  import opened Wrappers

  /** The transaction type that takes money out of a wallet. */
  const ExpenseKind: string := "expense"
  /** The transaction type the screens sum as income. */
  const IncomeKind: string := "income"
  /** The colour a wallet gets when none is given. */
  const DefaultWalletColor: string := "#4CAF50"

  /** A transaction (table `expense_table`); `kind` is "expense" or "income". */
  datatype Expense = Expense(
    id: int,
    userId: int,
    title: string,
    amount: real,
    categoryId: int,
    walletId: int,
    date: int,
    kind: string)

  /** A wallet (table `wallet_table`). */
  datatype Wallet = Wallet(
    id: int,
    userId: int,
    name: string,
    balance: real,
    icon: Option<string>,
    color: Option<string>)

  /** A category (table `category_table`); `kind` is the transaction type it belongs to. */
  datatype Category = Category(id: int, userId: int, name: string, kind: string)

  /** A registered user (table `user_table`). */
  datatype User = User(
    id: int,
    name: string,
    email: string,
    phone: Option<string>,
    password: string,
    avatarUri: Option<string>,
    address: Option<string>,
    createdAt: int,
    isVerified: bool,
    isLoggedIn: bool)

  /** A spending limit for one category over a date range (table `budget_table`). */
  datatype Budget = Budget(
    id: int,
    userId: int,
    categoryId: int,
    amountLimit: real,
    startDate: int,
    endDate: int)

  /* Primary keys. */

  function ExpenseKey(e: Expense): int { e.id }
  function WalletKey(w: Wallet): int { w.id }
  function CategoryKey(c: Category): int { c.id }
  function UserKey(u: User): int { u.id }
  function BudgetKey(b: Budget): int { b.id }

  /* Row values the screens add up or sort by. */

  function Amount(e: Expense): real { e.amount }
  function Balance(w: Wallet): real { w.balance }
  function DateRank(e: Expense): real { e.date as real }

  /** `Wallet(userId = u, name = n, balance = b)`: id left to the database, no icon, the default colour. */
  function NewWallet(u: int, name: string, balance: real): Wallet
  {
    Wallet(0, u, name, balance, None, Some(DefaultWalletColor))
  }
}
