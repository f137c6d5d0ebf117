/**
 * `TransactionRepository.addExpenseAndAffectWallet`: stores a transaction
 * and moves the balance of its wallet, both inside one database
 * transaction. A failing step (a storage error raised by Room) is an
 * explicit input; any failure rolls both writes back.
 */
module TransactionRepository {
  import opened Wrappers
  import opened Rows
  import opened Entities
  import opened WalletDao
  import Store

  /** Where the transaction block throws, if it does. */
  datatype Fault = NoFault | InsertFails | UpdateFails

  /** The balance change of a transaction: `-amount` for type "expense", `+amount` for any other type. */
  function SignedDelta(e: Expense): real
  {
    if e.kind == ExpenseKind then -e.amount else e.amount
  }

  /** The row `insertExpense` stores: the expense with its own id, or a fresh one for id 0. */
  function StoredRow(s: Store.Snapshot, e: Expense): Expense
  {
    e.(id := AutoKey(e.id, s.expenseSeq))
  }

  /** The committed effect of one add: the row stored (REPLACE) and the delta applied to the owner's wallet. */
  function AddEffect(s: Store.Snapshot, e: Expense): Store.Snapshot
  {
    var k := AutoKey(e.id, s.expenseSeq);
    s.(expenses := Upsert(s.expenses, ExpenseKey, e.(id := k)),
       expenseSeq := NextCounter(s.expenseSeq, k),
       wallets := ApplyDelta(s.wallets, e.userId, e.walletId, SignedDelta(e)))
  }

  class TransactionRepository {
    const db: Store.Store

    constructor (db: Store.Store)
      ensures this.db == db
    {
      this.db := db;
    }

    /**
     * `addExpenseAndAffectWallet`: either both writes are committed or the
     * database is left exactly as it was.
     */
    method AddExpenseAndAffectWallet(e: Expense, fault: Fault) returns (committed: bool)
      requires db.Valid()
      modifies db
      ensures db.Valid()
      ensures committed <==> fault == NoFault
      ensures committed ==> db.State() == AddEffect(old(db.State()), e)
      ensures !committed ==> db.State() == old(db.State())
    {
      var saved := db.State();
      if fault == InsertFails {
        return false;
      }
      db.InsertExpense(e);
      var delta := if e.kind == ExpenseKind then -e.amount else e.amount;
      if fault == UpdateFails {
        db.Restore(saved);
        return false;
      }
      db.UpdateBalanceDelta(e.userId, e.walletId, delta);
      committed := true;
    }
  }

  /**
   * The expense table after an add holds the stored row and every old row
   * with another id; the keys stay unique and the row with the new id is
   * the stored one.
   */
  lemma AddEffectExpenses(s: Store.Snapshot, e: Expense)
    requires s.Valid()
    ensures AddEffect(s, e).Valid()
    ensures forall x :: x in AddEffect(s, e).expenses <==>
              x == StoredRow(s, e) || (x in s.expenses && x.id != StoredRow(s, e).id)
  {
    var k := AutoKey(e.id, s.expenseSeq);
    UpsertSpec(s.expenses, ExpenseKey, e.(id := k));
    UpsertBound(s.expenses, ExpenseKey, e.(id := k), NextCounter(s.expenseSeq, k));
    ApplyDeltaKeepsKeys(s.wallets, e.userId, e.walletId, SignedDelta(e), s.walletSeq);
  }

  /**
   * Only the wallet with the expense's wallet id and owner changes, and
   * only its balance, by the signed amount; the other tables are untouched.
   */
  lemma AddEffectWallets(s: Store.Snapshot, e: Expense)
    ensures |AddEffect(s, e).wallets| == |s.wallets|
    ensures forall i :: 0 <= i < |s.wallets| ==>
      var x, y := s.wallets[i], AddEffect(s, e).wallets[i];
      if x.userId == e.userId && x.id == e.walletId then y == x.(balance := x.balance + SignedDelta(e))
      else y == x
    ensures AddEffect(s, e).categories == s.categories && AddEffect(s, e).users == s.users
    ensures AddEffect(s, e).budgets == s.budgets
  {
    var w := AddEffect(s, e).wallets;
    forall i | 0 <= i < |s.wallets| ensures
      var x, y := s.wallets[i], w[i];
      if x.userId == e.userId && x.id == e.walletId then y == x.(balance := x.balance + SignedDelta(e))
      else y == x
    {
      assert Hit(s.wallets[i], e.userId, e.walletId) <==> s.wallets[i].userId == e.userId && s.wallets[i].id == e.walletId;
    }
  }

  /** When the wallet id names no wallet of the expense's owner, the row is still stored and no balance moves. */
  lemma AddEffectWithoutWallet(s: Store.Snapshot, e: Expense)
    requires WalletById(s.wallets, e.userId, e.walletId) == None
    ensures AddEffect(s, e).wallets == s.wallets
    ensures StoredRow(s, e) in AddEffect(s, e).expenses
  {
    var w := AddEffect(s, e).wallets;
    forall i | 0 <= i < |s.wallets| ensures w[i] == s.wallets[i] {
      assert s.wallets[i] in s.wallets;
    }
    UpsertStores(s.expenses, ExpenseKey, StoredRow(s, e));
  }

  /* ---------------- traces of adds ---------------- */

  /** The state after committing the adds of `es`, in order. */
  function ReplayAdds(s: Store.Snapshot, es: seq<Expense>): Store.Snapshot
  {
    if es == [] then s else AddEffect(ReplayAdds(s, es[..|es| - 1]), es[|es| - 1])
  }

  /** The adds that move wallet `x`: same owner and same wallet id. */
  function Moves(x: Wallet): Expense -> bool
  {
    (e: Expense) => e.userId == x.userId && e.walletId == x.id
  }

  /**
   * Over a trace made only of adds, every wallet keeps its place, id and
   * owner, and its balance is the starting balance plus the signed amounts
   * of the added transactions that name it.
   */
  lemma {:induction false} ReplayBalances(s: Store.Snapshot, es: seq<Expense>)
    ensures |ReplayAdds(s, es).wallets| == |s.wallets|
    ensures forall i :: 0 <= i < |s.wallets| ==>
      var x, y := s.wallets[i], ReplayAdds(s, es).wallets[i];
      y == x.(balance := y.balance) && y.balance == x.balance + Sum(Filter(es, Moves(x)), SignedDelta)
  {
    if es != [] {
      var pre, e := es[..|es| - 1], es[|es| - 1];
      ReplayBalances(s, pre);
      AddEffectWallets(ReplayAdds(s, pre), e);
      assert es == pre + [e];
      forall i | 0 <= i < |s.wallets| ensures
        var x, y := s.wallets[i], ReplayAdds(s, es).wallets[i];
        y == x.(balance := y.balance) && y.balance == x.balance + Sum(Filter(es, Moves(x)), SignedDelta)
      {
        var x := s.wallets[i];
        FilterAppend(pre, [e], Moves(x));
        FilterCons(e, [], Moves(x));
        SumAppend(Filter(pre, Moves(x)), Filter([e], Moves(x)), SignedDelta);
        SumCons(e, [], SignedDelta);
      }
    }
  }

  /** A trace of adds only ever appends to the expense table's AUTOINCREMENT history: ids come from the counter. */
  lemma ReplayStaysValid(s: Store.Snapshot, es: seq<Expense>)
    requires s.Valid()
    ensures ReplayAdds(s, es).Valid()
    decreases |es|
  {
    if es != [] {
      ReplayStaysValid(s, es[..|es| - 1]);
      AddEffectExpenses(ReplayAdds(s, es[..|es| - 1]), es[|es| - 1]);
    }
  }

  /**
   * Deleting a stored transaction does not give its amount back: after an
   * add and the delete of the same row the wallet keeps the moved balance.
   */
  lemma AddThenDeleteKeepsDelta(s: Store.Snapshot, e: Expense, i: int)
    requires 0 <= i < |s.wallets| && s.wallets[i].userId == e.userId && s.wallets[i].id == e.walletId
    ensures var after := AddEffect(s, e);
            var deleted := after.(expenses := Remove(after.expenses, ExpenseKey, StoredRow(s, e).id));
            deleted.wallets[i].balance == s.wallets[i].balance + SignedDelta(e)
            && StoredRow(s, e) !in deleted.expenses
  {
    AddEffectWallets(s, e);
  }
}
