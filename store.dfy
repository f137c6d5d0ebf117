/**
 * The Room database: five tables held in place, each with the
 * AUTOINCREMENT counter SQLite keeps for it, and the write operations of
 * the DAOs. Each write states the whole new state: the table it touches
 * becomes a function of the old one and everything else stays the same.
 */
module Store {
  import opened Rows
  import opened Entities
  import CategoryDao
  import WalletDao
  import UserDao

  /** The contents of the database at one moment. */
  datatype Snapshot = Snapshot(
    expenses: seq<Expense>,
    wallets: seq<Wallet>,
    categories: seq<Category>,
    users: seq<User>,
    budgets: seq<Budget>,
    expenseSeq: int,
    walletSeq: int,
    categorySeq: int,
    userSeq: int,
    budgetSeq: int)
  {
    /** Primary keys are unique and never above the table's AUTOINCREMENT counter. */
    predicate Valid()
    {
      UniqueKeys(expenses, ExpenseKey) && KeysAtMost(expenses, ExpenseKey, expenseSeq)
      && UniqueKeys(wallets, WalletKey) && KeysAtMost(wallets, WalletKey, walletSeq)
      && UniqueKeys(categories, CategoryKey) && KeysAtMost(categories, CategoryKey, categorySeq)
      && UniqueKeys(users, UserKey) && KeysAtMost(users, UserKey, userSeq)
      && UniqueKeys(budgets, BudgetKey) && KeysAtMost(budgets, BudgetKey, budgetSeq)
    }
  }

  class Store {
    var expenses: seq<Expense>
    var wallets: seq<Wallet>
    var categories: seq<Category>
    var users: seq<User>
    var budgets: seq<Budget>
    var expenseSeq: int
    var walletSeq: int
    var categorySeq: int
    var userSeq: int
    var budgetSeq: int

    function State(): Snapshot
      reads this
    {
      Snapshot(expenses, wallets, categories, users, budgets,
               expenseSeq, walletSeq, categorySeq, userSeq, budgetSeq)
    }

    predicate Valid()
      reads this
    {
      State().Valid()
    }

    /** A fresh database: every table empty, every counter at 0. */
    constructor ()
      ensures Valid()
      ensures State() == Snapshot([], [], [], [], [], 0, 0, 0, 0, 0)
    {
      expenses, wallets, categories, users, budgets := [], [], [], [], [];
      expenseSeq, walletSeq, categorySeq, userSeq, budgetSeq := 0, 0, 0, 0, 0;
    }

    /** Puts back an earlier state: the rollback of a failed transaction. */
    method Restore(s: Snapshot)
      modifies this
      ensures State() == s
    {
      expenses, wallets, categories, users, budgets := s.expenses, s.wallets, s.categories, s.users, s.budgets;
      expenseSeq, walletSeq, categorySeq, userSeq, budgetSeq := s.expenseSeq, s.walletSeq, s.categorySeq, s.userSeq, s.budgetSeq;
    }

    /* ---------------- expense_table ---------------- */

    /** `insertExpense` (REPLACE): overwrite the row with the same id in place, or append the row with a fresh id. */
    method InsertExpense(e: Expense)
      requires Valid()
      modifies this
      ensures Valid()
      ensures State() == old(State()).(
        expenses := Upsert(old(expenses), ExpenseKey, e.(id := AutoKey(e.id, old(expenseSeq)))),
        expenseSeq := NextCounter(old(expenseSeq), AutoKey(e.id, old(expenseSeq))))
    {
      var k := AutoKey(e.id, expenseSeq);
      UpsertBound(expenses, ExpenseKey, e.(id := k), NextCounter(expenseSeq, k));
      expenses := Upsert(expenses, ExpenseKey, e.(id := k));
      expenseSeq := NextCounter(expenseSeq, k);
    }

    /** `updateExpense`: the row with the same id becomes `e`; nothing happens when there is none. */
    method UpdateExpense(e: Expense)
      requires Valid()
      modifies this
      ensures Valid()
      ensures State() == old(State()).(expenses := Overwrite(old(expenses), ExpenseKey, e))
    {
      OverwriteBound(expenses, ExpenseKey, e, expenseSeq);
      expenses := Overwrite(expenses, ExpenseKey, e);
    }

    /** `deleteExpense`: removes the row with the id of `e`, whatever its other fields. */
    method DeleteExpense(e: Expense)
      requires Valid()
      modifies this
      ensures Valid()
      ensures State() == old(State()).(expenses := Remove(old(expenses), ExpenseKey, e.id))
    {
      RemoveBound(expenses, ExpenseKey, e.id, expenseSeq);
      expenses := Remove(expenses, ExpenseKey, e.id);
    }

    /* ---------------- wallet_table ---------------- */

    /** `insertWallet` (REPLACE). */
    method InsertWallet(w: Wallet)
      requires Valid()
      modifies this
      ensures Valid()
      ensures State() == old(State()).(
        wallets := Upsert(old(wallets), WalletKey, w.(id := AutoKey(w.id, old(walletSeq)))),
        walletSeq := NextCounter(old(walletSeq), AutoKey(w.id, old(walletSeq))))
    {
      var k := AutoKey(w.id, walletSeq);
      UpsertBound(wallets, WalletKey, w.(id := k), NextCounter(walletSeq, k));
      wallets := Upsert(wallets, WalletKey, w.(id := k));
      walletSeq := NextCounter(walletSeq, k);
    }

    /** `updateWallet`: overwrites the whole row, balance included. */
    method UpdateWallet(w: Wallet)
      requires Valid()
      modifies this
      ensures Valid()
      ensures State() == old(State()).(wallets := Overwrite(old(wallets), WalletKey, w))
    {
      OverwriteBound(wallets, WalletKey, w, walletSeq);
      wallets := Overwrite(wallets, WalletKey, w);
    }

    /** `deleteWallet`: removes the row; transactions that name the wallet are kept. */
    method DeleteWallet(w: Wallet)
      requires Valid()
      modifies this
      ensures Valid()
      ensures State() == old(State()).(wallets := Remove(old(wallets), WalletKey, w.id))
    {
      RemoveBound(wallets, WalletKey, w.id, walletSeq);
      wallets := Remove(wallets, WalletKey, w.id);
    }

    /** `updateBalanceDelta`: `balance += delta` on the wallet with this owner and id. */
    method UpdateBalanceDelta(u: int, w: int, delta: real)
      requires Valid()
      modifies this
      ensures Valid()
      ensures State() == old(State()).(wallets := WalletDao.ApplyDelta(old(wallets), u, w, delta))
    {
      WalletDao.ApplyDeltaKeepsKeys(wallets, u, w, delta, walletSeq);
      wallets := WalletDao.ApplyDelta(wallets, u, w, delta);
    }

    /* ---------------- category_table ---------------- */

    /** `insertCategory` (REPLACE). */
    method InsertCategory(c: Category)
      requires Valid()
      modifies this
      ensures Valid()
      ensures State() == old(State()).(
        categories := Upsert(old(categories), CategoryKey, c.(id := AutoKey(c.id, old(categorySeq)))),
        categorySeq := NextCounter(old(categorySeq), AutoKey(c.id, old(categorySeq))))
    {
      var k := AutoKey(c.id, categorySeq);
      UpsertBound(categories, CategoryKey, c.(id := k), NextCounter(categorySeq, k));
      categories := Upsert(categories, CategoryKey, c.(id := k));
      categorySeq := NextCounter(categorySeq, k);
    }

    /** `updateCategory`. */
    method UpdateCategory(c: Category)
      requires Valid()
      modifies this
      ensures Valid()
      ensures State() == old(State()).(categories := Overwrite(old(categories), CategoryKey, c))
    {
      OverwriteBound(categories, CategoryKey, c, categorySeq);
      categories := Overwrite(categories, CategoryKey, c);
    }

    /** `deleteCategory`. */
    method DeleteCategory(c: Category)
      requires Valid()
      modifies this
      ensures Valid()
      ensures State() == old(State()).(categories := Remove(old(categories), CategoryKey, c.id))
    {
      RemoveBound(categories, CategoryKey, c.id, categorySeq);
      categories := Remove(categories, CategoryKey, c.id);
    }

    /**
     * `insertMany`: inserts the list row by row inside one transaction; the
     * first key clash aborts and rolls every row of the call back.
     */
    method InsertCategories(cs: seq<Category>) returns (ok: bool)
      requires Valid()
      modifies this
      ensures Valid()
      ensures ok <==> CategoryDao.InsertAll(old(categories), old(categorySeq), cs).Some?
      ensures ok ==> State() == old(State()).(
        categories := CategoryDao.InsertAll(old(categories), old(categorySeq), cs).value.0,
        categorySeq := CategoryDao.InsertAll(old(categories), old(categorySeq), cs).value.1)
      ensures !ok ==> State() == old(State())
    {
      var saved := State();
      var i := 0;
      while i < |cs|
        invariant 0 <= i <= |cs|
        invariant State() == saved.(categories := categories, categorySeq := categorySeq)
        invariant CategoryDao.Counted(categories, categorySeq)
        invariant CategoryDao.InsertAll(saved.categories, saved.categorySeq, cs)
               == CategoryDao.InsertAll(categories, categorySeq, cs[i..])
      {
        assert cs[i..][1..] == cs[i + 1..];
        CategoryDao.InsertOneSpec(categories, categorySeq, cs[i]);
        var k := AutoKey(cs[i].id, categorySeq);
        if HasKey(categories, CategoryKey, k) {
          Restore(saved);
          return false;
        }
        categories := categories + [cs[i].(id := k)];
        categorySeq := NextCounter(categorySeq, k);
        i := i + 1;
      }
      ok := true;
    }

    /* ---------------- user_table ---------------- */

    /** `insertUser` (plain `@Insert`, ABORT): a key clash writes nothing and reports failure. */
    method InsertUser(x: User) returns (ok: bool)
      requires Valid()
      modifies this
      ensures Valid()
      ensures ok <==> !HasKey(old(users), UserKey, AutoKey(x.id, old(userSeq)))
      ensures ok ==> State() == old(State()).(
        users := old(users) + [x.(id := AutoKey(x.id, old(userSeq)))],
        userSeq := NextCounter(old(userSeq), AutoKey(x.id, old(userSeq))))
      ensures !ok ==> State() == old(State())
    {
      var k := AutoKey(x.id, userSeq);
      var r := InsertOrAbort(users, UserKey, x.(id := k));
      InsertOrAbortSpec(users, UserKey, x.(id := k));
      if r.None? {
        return false;
      }
      assert forall i :: 0 <= i < |users| ==> (users + [x.(id := k)])[i] == users[i];
      users := r.value;
      userSeq := NextCounter(userSeq, k);
      ok := true;
    }

    /** `updateUser`. */
    method UpdateUser(x: User)
      requires Valid()
      modifies this
      ensures Valid()
      ensures State() == old(State()).(users := Overwrite(old(users), UserKey, x))
    {
      OverwriteBound(users, UserKey, x, userSeq);
      users := Overwrite(users, UserKey, x);
    }

    /** `setLoggedIn`: flags the user with this id and no one else's flag changes. */
    method SetLoggedIn(id: int)
      requires Valid()
      modifies this
      ensures Valid()
      ensures State() == old(State()).(users := UserDao.SetLoggedIn(old(users), id))
    {
      var r := UserDao.SetLoggedIn(users, id);
      assert forall i :: 0 <= i < |users| ==> UserKey(r[i]) == UserKey(users[i]);
      users := r;
    }

    /** `logoutAll`: clears every flag. */
    method LogoutAll()
      requires Valid()
      modifies this
      ensures Valid()
      ensures State() == old(State()).(users := UserDao.LogoutAll(old(users)))
    {
      var r := UserDao.LogoutAll(users);
      assert forall i :: 0 <= i < |users| ==> UserKey(r[i]) == UserKey(users[i]);
      users := r;
    }

    /* ---------------- budget_table ---------------- */

    /** `insertBudget` (REPLACE). */
    method InsertBudget(b: Budget)
      requires Valid()
      modifies this
      ensures Valid()
      ensures State() == old(State()).(
        budgets := Upsert(old(budgets), BudgetKey, b.(id := AutoKey(b.id, old(budgetSeq)))),
        budgetSeq := NextCounter(old(budgetSeq), AutoKey(b.id, old(budgetSeq))))
    {
      var k := AutoKey(b.id, budgetSeq);
      UpsertBound(budgets, BudgetKey, b.(id := k), NextCounter(budgetSeq, k));
      budgets := Upsert(budgets, BudgetKey, b.(id := k));
      budgetSeq := NextCounter(budgetSeq, k);
    }

    /** `updateBudget`. */
    method UpdateBudget(b: Budget)
      requires Valid()
      modifies this
      ensures Valid()
      ensures State() == old(State()).(budgets := Overwrite(old(budgets), BudgetKey, b))
    {
      OverwriteBound(budgets, BudgetKey, b, budgetSeq);
      budgets := Overwrite(budgets, BudgetKey, b);
    }

    /** `deleteBudget`. */
    method DeleteBudget(b: Budget)
      requires Valid()
      modifies this
      ensures Valid()
      ensures State() == old(State()).(budgets := Remove(old(budgets), BudgetKey, b.id))
    {
      RemoveBound(budgets, BudgetKey, b.id, budgetSeq);
      budgets := Remove(budgets, BudgetKey, b.id);
    }
  }
}
