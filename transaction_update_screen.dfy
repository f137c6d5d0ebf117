/**
 * `TransactionUpdateScreen`: loads one of the user's transactions into a
 * form and writes the edited row back with `updateExpense`. The edit writes
 * the row only: no wallet balance moves, whatever happens to the amount,
 * the type or the wallet. The amount field's `toDoubleOrNull()` is the
 * input `amt` of `Save`.
 */
module TransactionUpdateScreen {
  import opened Wrappers
  import opened Rows
  import opened Text
  import opened Entities
  import opened ExpenseDao
  import CategoryDao
  import WalletDao
  import Store

  /** The category the loaded row names, looked up among the user's categories of the row's type. */
  function HasId(id: int): Category -> bool
  {
    (c: Category) => c.id == id
  }

  /** `getCategoriesByType(userId, e.type).firstOrNull()?.firstOrNull { it.id == e.categoryId }`. */
  function LoadedCategory(cats: seq<Category>, u: int, e: Expense): (r: Option<Category>)
    ensures r.Some? ==> r.value in cats && r.value.userId == u && r.value.kind == e.kind && r.value.id == e.categoryId
    ensures r.None? <==> forall c :: c in cats ==> !(c.userId == u && c.kind == e.kind && c.id == e.categoryId)
  {
    var r := FirstWhere(CategoryDao.CategoriesByType(cats, u, e.kind), HasId(e.categoryId));
    assert r.None? <==> forall c :: c in CategoryDao.CategoriesByType(cats, u, e.kind) ==> !HasId(e.categoryId)(c);
    r
  }

  /** The two messages the save button can show. */
  datatype EditError = BadTitleOrAmount | NoCategoryOrWallet

  /** What the save button does: nothing without a loaded row, an error, or the row to write. */
  datatype EditOutcome = NothingLoaded | Refused(error: EditError) | Edited(row: Expense)

  /**
   * The save button: without a loaded row it returns at once; a blank
   * title or an unparsable or non-positive amount is refused first, then a
   * missing category or wallet; otherwise the loaded row is copied with the
   * trimmed title, the amount, the type, the picked category and wallet and
   * the date, keeping its id and its user.
   */
  function CheckEdit(loaded: Option<Expense>, title: string, amt: Option<real>, kind: string, date: int,
                     cat: Option<Category>, wal: Option<Wallet>): (r: EditOutcome)
    ensures r == NothingLoaded <==> loaded.None?
    ensures r == Refused(BadTitleOrAmount) <==> loaded.Some? && (IsBlank(title) || amt.None? || amt.value <= 0.0)
    ensures r.Edited? <==> loaded.Some? && !IsBlank(title) && amt.Some? && amt.value > 0.0 && cat.Some? && wal.Some?
    ensures r.Edited? ==>
      r.row.id == loaded.value.id && r.row.userId == loaded.value.userId
      && r.row.amount == amt.value && r.row.amount > 0.0 && r.row.kind == kind
      && r.row.categoryId == cat.value.id && r.row.walletId == wal.value.id && r.row.date == date
      && r.row.title == Trim(title) && !IsBlank(r.row.title)
  {
    if loaded.None? then NothingLoaded
    else if IsBlank(title) || amt.None? || amt.value <= 0.0 then Refused(BadTitleOrAmount)
    else if wal.None? || cat.None? then Refused(NoCategoryOrWallet)
    else
      TrimmedNotBlank(title);
      Edited(loaded.value.(title := Trim(title), amount := amt.value, kind := kind,
                           categoryId := cat.value.id, walletId := wal.value.id, date := date))
  }

  /**
   * Saving again without touching the form gives the same row: the title
   * is already trimmed.
   */
  lemma EditIdempotent(loaded: Option<Expense>, title: string, amt: Option<real>, kind: string, date: int,
                        cat: Option<Category>, wal: Option<Wallet>)
    requires CheckEdit(loaded, title, amt, kind, date, cat, wal).Edited?
    ensures var row := CheckEdit(loaded, title, amt, kind, date, cat, wal).row;
            CheckEdit(Some(row), row.title, amt, kind, date, cat, wal) == Edited(row)
  {
    TrimIdempotent(title);
    TrimmedNotBlank(title);
  }

  /**
   * The written row takes the place of the loaded one: the table keeps its
   * keys unique, holds the edited row, no longer holds the loaded row when
   * the edit changed it, and keeps every row with another id.
   */
  lemma EditReplacesRow(t: seq<Expense>, loaded: Expense, title: string, amt: Option<real>, kind: string, date: int,
                        cat: Option<Category>, wal: Option<Wallet>)
    requires UniqueKeys(t, ExpenseKey) && loaded in t
    requires CheckEdit(Some(loaded), title, amt, kind, date, cat, wal).Edited?
    ensures var row := CheckEdit(Some(loaded), title, amt, kind, date, cat, wal).row;
            var after := Overwrite(t, ExpenseKey, row);
            UniqueKeys(after, ExpenseKey) && row in after
            && (row != loaded ==> loaded !in after)
            && forall x :: x in t && x.id != loaded.id ==> x in after
  {
    var row := CheckEdit(Some(loaded), title, amt, kind, date, cat, wal).row;
    OverwriteSpec(t, ExpenseKey, row);
    var i :| 0 <= i < |t| && t[i] == loaded;
    assert ExpenseKey(t[i]) == row.id;
  }

  /** The form, with the row it was loaded from. */
  class EditForm {
    const userId: int
    var loaded: Option<Expense>
    var notFound: bool
    var title: string
    var kind: string
    var date: int
    var category: Option<Category>
    var wallet: Option<Wallet>

    /** The loaded row, a picked category and a picked wallet all belong to the session user. */
    predicate Valid()
      reads this
    {
      (loaded.Some? ==> loaded.value.userId == userId)
      && (category.Some? ==> category.value.userId == userId)
      && (wallet.Some? ==> wallet.value.userId == userId)
    }

    /** Before loading: no row, type "expense", the current time, nothing picked. */
    constructor (u: int, now: int)
      ensures Valid()
      ensures userId == u && loaded == None && !notFound && title == "" && kind == ExpenseKind && date == now
      ensures category == None && wallet == None
    {
      userId, loaded, notFound, title, kind, date := u, None, false, "", ExpenseKind, now;
      category, wallet := None, None;
    }

    /**
     * `LaunchedEffect(expenseId)`: looks the row up among the user's rows;
     * a found row fills the form, with the category looked up among the
     * categories of the row's type and the wallet by id; a missing one sets
     * the not-found message and leaves the fields as they were.
     */
    method Load(db: Store.Store, expenseId: int)
      requires Valid()
      modifies this
      ensures Valid()
      ensures loaded == ExpenseById(db.expenses, userId, expenseId)
      ensures notFound <==> loaded.None?
      ensures loaded.Some? ==>
        title == loaded.value.title && kind == loaded.value.kind && date == loaded.value.date
        && category == LoadedCategory(db.categories, userId, loaded.value)
        && wallet == WalletDao.WalletById(db.wallets, userId, loaded.value.walletId)
      ensures loaded.None? ==>
        title == old(title) && kind == old(kind) && date == old(date)
        && category == old(category) && wallet == old(wallet)
    {
      loaded := ExpenseById(db.expenses, userId, expenseId);
      if loaded.Some? {
        var e := loaded.value;
        title, kind, date := e.title, e.kind, e.date;
        category := LoadedCategory(db.categories, userId, e);
        wallet := WalletDao.WalletById(db.wallets, userId, e.walletId);
        notFound := false;
      } else {
        notFound := true;
      }
    }

    /** A type chip: unlike the add form, the picked category stays. */
    method SelectType(k: string)
      requires Valid()
      modifies this
      ensures Valid()
      ensures kind == k && category == old(category)
      ensures loaded == old(loaded) && title == old(title) && date == old(date) && wallet == old(wallet)
    {
      kind := k;
    }

    /** A category from the dropdown, which lists `getCategoriesByType(userId, type)`. */
    method PickCategory(cats: seq<Category>, c: Category)
      requires Valid()
      requires c in CategoryDao.CategoriesByType(cats, userId, kind)
      modifies this
      ensures Valid()
      ensures category == Some(c)
      ensures loaded == old(loaded) && title == old(title) && kind == old(kind) && date == old(date) && wallet == old(wallet)
    {
      category := Some(c);
    }

    /** A wallet from the dropdown, which lists `getAllWallets(userId)`. */
    method PickWallet(ws: seq<Wallet>, w: Wallet)
      requires Valid()
      requires w in WalletDao.AllWallets(ws, userId)
      modifies this
      ensures Valid()
      ensures wallet == Some(w)
      ensures loaded == old(loaded) && title == old(title) && kind == old(kind) && date == old(date) && category == old(category)
    {
      wallet := Some(w);
    }

    /** The title field. */
    method TypeTitle(s: string)
      requires Valid()
      modifies this
      ensures Valid()
      ensures title == s
      ensures loaded == old(loaded) && kind == old(kind) && date == old(date) && category == old(category) && wallet == old(wallet)
    {
      title := s;
    }

    /** The date picker: the picked day at noon, computed by the calendar. */
    method PickDate(d: int)
      requires Valid()
      modifies this
      ensures Valid()
      ensures date == d
      ensures loaded == old(loaded) && title == old(title) && kind == old(kind) && category == old(category) && wallet == old(wallet)
    {
      date := d;
    }

    /**
     * The save button: it first clears the message line, so the not-found
     * message goes on every click, and leaves the form's fields as they
     * are. An accepted edit overwrites the row with the loaded id, and
     * nothing else in the database changes; in particular the wallets keep
     * their balances.
     */
    method Save(db: Store.Store, amt: Option<real>) returns (r: EditOutcome)
      requires Valid() && db.Valid()
      modifies this, db
      ensures Valid() && db.Valid()
      ensures !notFound
      ensures loaded == old(loaded) && title == old(title) && kind == old(kind) && date == old(date)
      ensures category == old(category) && wallet == old(wallet)
      ensures r == CheckEdit(loaded, title, amt, kind, date, category, wallet)
      ensures r.Edited? ==> r.row.userId == userId
      ensures r.Edited? ==> db.State() == old(db.State()).(expenses := Overwrite(old(db.expenses), ExpenseKey, r.row))
      ensures !r.Edited? ==> db.State() == old(db.State())
      ensures db.wallets == old(db.wallets)
    {
      notFound := false;
      if loaded.None? {
        return NothingLoaded;
      }
      if IsBlank(title) || amt.None? || amt.value <= 0.0 {
        return Refused(BadTitleOrAmount);
      }
      if wallet.None? || category.None? {
        return Refused(NoCategoryOrWallet);
      }
      TrimmedNotBlank(title);
      var updated := loaded.value.(title := Trim(title), amount := amt.value, kind := kind,
                                   categoryId := category.value.id, walletId := wallet.value.id, date := date);
      db.UpdateExpense(updated);
      r := Edited(updated);
    }
  }

  /**
   * Because the type chips keep the picked category, an edit can store an
   * income row under an expense category; loading that row again finds no
   * category, since the lookup searches the categories of the row's type.
   */
  lemma TypeChangeKeepsCategory(cats: seq<Category>, loaded: Expense, c: Category, w: Wallet, amt: real, date: int)
    requires c in cats && c.userId == loaded.userId && c.kind == ExpenseKind && amt > 0.0
    requires UniqueKeys(cats, CategoryKey)
    ensures var r := CheckEdit(Some(loaded), "x", Some(amt), IncomeKind, date, Some(c), Some(w));
            r.Edited? && r.row.categoryId == c.id && r.row.kind != c.kind
            && LoadedCategory(cats, r.row.userId, r.row) == None
  {
    assert !IsBlank("x") by { assert !IsWhitespace("x"[0]); }
    var r := CheckEdit(Some(loaded), "x", Some(amt), IncomeKind, date, Some(c), Some(w));
    forall d | d in cats && d.userId == r.row.userId && d.id == r.row.categoryId ensures d.kind != r.row.kind {
      var i :| 0 <= i < |cats| && cats[i] == d;
      var j :| 0 <= j < |cats| && cats[j] == c;
      assert CategoryKey(cats[i]) == CategoryKey(cats[j]);
    }
  }
}
