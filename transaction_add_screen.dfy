/**
 * `TransactionAddScreen`: the form that records a new transaction. The
 * type chips, the category list of the chosen type, the user's wallets, the
 * note and the date make up the form; the save button checks the amount,
 * then the category, then the wallet, and hands a complete row to
 * `addExpenseAndAffectWallet`. The amount field's `toDoubleOrNull()` is the
 * input `amt` of `Save`.
 */
module TransactionAddScreen {
  import opened Wrappers
  import opened Rows
  import opened Text
  import opened Entities
  import CategoryDao
  import WalletDao
  import opened TransactionRepository
  import Store

  /** The three messages the save button can show, in the order it tests them. */
  datatype AddError = InvalidAmount | NoCategory | NoWallet

  /** What the save button decides: an error message, or the row to store. */
  datatype Checked = Rejected(error: AddError) | Accepted(row: Expense)

  /** `note.ifBlank { cat.name }`. */
  function Title(note: string, cat: Category): string
  {
    if IsBlank(note) then cat.name else note
  }

  /**
   * The save button's `when`: an unparsable or non-positive amount first,
   * then a missing category, then a missing wallet; otherwise the row with
   * id 0 (left to the database), the user, the title, the amount, the picked
   * category and wallet, the date and the selected type.
   */
  function Check(u: int, kind: string, amt: Option<real>, note: string, date: int,
                 cat: Option<Category>, wal: Option<Wallet>): (r: Checked)
    ensures r.Accepted? <==> amt.Some? && amt.value > 0.0 && cat.Some? && wal.Some?
    ensures r == Rejected(InvalidAmount) <==> amt.None? || amt.value <= 0.0
    ensures r == Rejected(NoCategory) <==> amt.Some? && amt.value > 0.0 && cat.None?
    ensures r == Rejected(NoWallet) <==> amt.Some? && amt.value > 0.0 && cat.Some? && wal.None?
    ensures r.Accepted? ==>
      r.row.id == 0 && r.row.userId == u && r.row.amount == amt.value && r.row.amount > 0.0
      && r.row.categoryId == cat.value.id && r.row.walletId == wal.value.id
      && r.row.date == date && r.row.kind == kind
    ensures r.Accepted? ==> (IsBlank(note) ==> r.row.title == cat.value.name) && (!IsBlank(note) ==> r.row.title == note)
  {
    if amt.None? || amt.value <= 0.0 then Rejected(InvalidAmount)
    else if cat.None? then Rejected(NoCategory)
    else if wal.None? then Rejected(NoWallet)
    else Accepted(Expense(0, u, Title(note, cat.value), amt.value, cat.value.id, wal.value.id, date, kind))
  }

  /**
   * The title of a saved row is blank only when both the note and the
   * category's name are blank.
   */
  lemma TitleNotBlank(u: int, kind: string, amt: Option<real>, note: string, date: int,
                      cat: Option<Category>, wal: Option<Wallet>)
    requires Check(u, kind, amt, note, date, cat, wal).Accepted?
    ensures IsBlank(Check(u, kind, amt, note, date, cat, wal).row.title) <==> IsBlank(note) && IsBlank(cat.value.name)
  {
  }

  /**
   * A saved row has id 0, so the database gives it the next AUTOINCREMENT
   * id and appends it after every row already stored.
   */
  lemma SavedRowIsAppended(s: Store.Snapshot, u: int, kind: string, amt: Option<real>, note: string, date: int,
                           cat: Option<Category>, wal: Option<Wallet>)
    requires s.Valid()
    requires Check(u, kind, amt, note, date, cat, wal).Accepted?
    ensures var row := Check(u, kind, amt, note, date, cat, wal).row;
            AddEffect(s, row).expenses == s.expenses + [row.(id := s.expenseSeq + 1)]
            && AddEffect(s, row).expenseSeq == s.expenseSeq + 1
  {
    var row := Check(u, kind, amt, note, date, cat, wal).row;
    UpsertFreshAppends(s.expenses, ExpenseKey, row.(id := s.expenseSeq + 1), s.expenseSeq);
  }

  /**
   * Saving moves the picked wallet: an expense takes the amount out of it,
   * any other type puts the amount in. No other wallet changes.
   */
  lemma SavedRowMovesWallet(s: Store.Snapshot, u: int, kind: string, amt: Option<real>, note: string, date: int,
                            cat: Option<Category>, wal: Option<Wallet>, i: int)
    requires Check(u, kind, amt, note, date, cat, wal).Accepted?
    requires 0 <= i < |s.wallets|
    ensures var after := AddEffect(s, Check(u, kind, amt, note, date, cat, wal).row).wallets;
            |after| == |s.wallets| &&
            if s.wallets[i].userId == u && s.wallets[i].id == wal.value.id then
              after[i].balance == s.wallets[i].balance + (if kind == ExpenseKind then -amt.value else amt.value)
              && after[i].balance != s.wallets[i].balance
            else after[i] == s.wallets[i]
  {
    AddEffectWallets(s, Check(u, kind, amt, note, date, cat, wal).row);
  }

  /** The form's state: everything but the amount text. */
  class AddForm {
    const userId: int
    var kind: string
    var note: string
    var date: int
    var category: Option<Category>
    var wallet: Option<Wallet>

    /**
     * A picked category is one of the user's categories of the selected
     * type, and a picked wallet is one of the user's wallets.
     */
    predicate Valid()
      reads this
    {
      (category.Some? ==> category.value.userId == userId && category.value.kind == kind)
      && (wallet.Some? ==> wallet.value.userId == userId)
    }

    /** The empty form: type "expense", no note, the current time, nothing picked. */
    constructor (u: int, now: int)
      ensures Valid()
      ensures userId == u && kind == ExpenseKind && note == "" && date == now
      ensures category == None && wallet == None
    {
      userId, kind, note, date := u, ExpenseKind, "", now;
      category, wallet := None, None;
    }

    /**
     * A type chip. `LaunchedEffect(type)` drops the picked category only
     * when the type really changes: tapping the chip already selected
     * writes an equal value, and the effect does not run again.
     */
    method SelectType(k: string)
      requires Valid()
      modifies this
      ensures Valid()
      ensures kind == k
      ensures k != old(kind) ==> category == None
      ensures k == old(kind) ==> category == old(category)
      ensures note == old(note) && date == old(date) && wallet == old(wallet)
    {
      if k != kind {
        category := None;
      }
      kind := k;
    }

    /** A category from the dropdown, which lists `getCategoriesByType(userId, type)`. */
    method PickCategory(cats: seq<Category>, c: Category)
      requires Valid()
      requires c in CategoryDao.CategoriesByType(cats, userId, kind)
      modifies this
      ensures Valid()
      ensures category == Some(c)
      ensures kind == old(kind) && note == old(note) && date == old(date) && wallet == old(wallet)
    {
      category := Some(c);
    }

    /** A wallet from the dropdown, which lists `getAllWallets(userId)`. */
    method PickWallet(ws: seq<Wallet>, w: Wallet)
      requires Valid()
      requires w in WalletDao.AllWallets(ws, userId)
      modifies this
      ensures Valid()
      ensures wallet == Some(w)
      ensures kind == old(kind) && note == old(note) && date == old(date) && category == old(category)
    {
      wallet := Some(w);
    }

    /** The note field. */
    method TypeNote(n: string)
      requires Valid()
      modifies this
      ensures Valid()
      ensures note == n
      ensures kind == old(kind) && date == old(date) && category == old(category) && wallet == old(wallet)
    {
      note := n;
    }

    /** The date picker: the picked day at noon, computed by the calendar. */
    method PickDate(d: int)
      requires Valid()
      modifies this
      ensures Valid()
      ensures date == d
      ensures kind == old(kind) && note == old(note) && category == old(category) && wallet == old(wallet)
    {
      date := d;
    }

    /**
     * The save button: on an error nothing is written; otherwise the row
     * goes through `addExpenseAndAffectWallet`. A saved row always carries
     * a category of its own type and of its own user.
     */
    method Save(repo: TransactionRepository, amt: Option<real>, fault: Fault) returns (r: Checked, committed: bool)
      requires Valid() && repo.db.Valid()
      modifies repo.db
      ensures repo.db.Valid()
      ensures r == Check(userId, kind, amt, note, date, category, wallet)
      ensures r.Accepted? ==> category.value.kind == r.row.kind && category.value.userId == r.row.userId
      ensures r.Accepted? ==> wallet.value.userId == r.row.userId
      ensures committed <==> r.Accepted? && fault == NoFault
      ensures committed ==> repo.db.State() == AddEffect(old(repo.db.State()), r.row)
      ensures !committed ==> repo.db.State() == old(repo.db.State())
    {
      r := Check(userId, kind, amt, note, date, category, wallet);
      if r.Rejected? {
        return r, false;
      }
      committed := repo.AddExpenseAndAffectWallet(r.row, fault);
    }
  }
}
