/**
 * `WalletScreen`: the user's wallets with the sum of their balances, and
 * the add, edit and delete dialogs. The dialog's `toDoubleOrNull()` of the
 * balance field is the input `bal`. Every write goes straight to the wallet
 * DAO: an edit overwrites the balance with the typed one, and a delete does
 * not look at the transactions that name the wallet.
 */
module WalletScreen {
  import opened Wrappers
  import opened Rows
  import opened Text
  import opened Entities
  import opened WalletDao
  import opened WalletRepository
  import Store

  /* ---------------- the total ---------------- */

  /** `wallets.sumOf { it.balance }`, added up one wallet at a time. */
  method ShownTotal(ws: seq<Wallet>) returns (total: real)
    ensures total == Sum(ws, Balance)
  {
    total := 0.0;
    var i := 0;
    while i < |ws|
      invariant 0 <= i <= |ws|
      invariant total == Sum(ws[..i], Balance)
    {
      SumAppend(ws[..i], [ws[i]], Balance);
      SumCons(ws[i], [], Balance);
      assert ws[..i + 1] == ws[..i] + [ws[i]];
      total := total + ws[i].balance;
      i := i + 1;
    }
    assert ws[..|ws|] == ws;
  }

  /** The header total over the listed wallets is the repository's `totalBalance`. */
  method HeaderTotal(t: seq<Wallet>, u: int) returns (total: real)
    ensures total == TotalBalance(t, u)
  {
    total := ShownTotal(AllWallets(t, u));
  }

  /** What a wallet adds to user `u`'s total. */
  function Own(x: Wallet, u: int): real
  {
    if x.userId == u then x.balance else 0.0
  }

  /** Appending a wallet adds its balance to its owner's total and nothing to anyone else's. */
  lemma TotalAppend(t: seq<Wallet>, x: Wallet, u: int)
    ensures TotalBalance(t + [x], u) == TotalBalance(t, u) + Own(x, u)
  {
    FilterAppend(t, [x], OfUser(u));
    FilterCons(x, [], OfUser(u));
    SumAppend(Filter(t, OfUser(u)), Filter([x], OfUser(u)), Balance);
    SumCons(x, [], Balance);
  }

  /**
   * Overwriting a stored wallet by id replaces its part of the total by
   * the new row's part; the other wallets keep theirs.
   */
  lemma {:induction false} TotalAfterOverwrite(t: seq<Wallet>, u: int, w: Wallet, r: Wallet)
    requires UniqueKeys(t, WalletKey) && w in t && r.id == w.id
    ensures TotalBalance(Overwrite(t, WalletKey, r), u) == TotalBalance(t, u) - Own(w, u) + Own(r, u)
  {
    var o := Overwrite(t, WalletKey, r);
    assert o[1..] == Overwrite(t[1..], WalletKey, r);
    TotalBalanceUncons(o, u);
    TotalBalanceUncons(t, u);
    UniqueKeysTail(t, WalletKey);
    if t[0] == w {
      OverwriteMissing(t[1..], WalletKey, r);
    } else {
      var j :| 0 <= j < |t| && t[j] == w;
      assert WalletKey(t[0]) != WalletKey(t[j]);
      assert t[1..][j - 1] == w;
      TotalAfterOverwrite(t[1..], u, w, r);
    }
  }

  /** Deleting a stored wallet takes its balance out of its owner's total. */
  lemma {:induction false} TotalAfterRemove(t: seq<Wallet>, u: int, w: Wallet)
    requires UniqueKeys(t, WalletKey) && w in t
    ensures TotalBalance(Remove(t, WalletKey, w.id), u) == TotalBalance(t, u) - Own(w, u)
  {
    var d := Remove(t, WalletKey, w.id);
    assert d == (if t[0].id != w.id then [t[0]] else []) + Remove(t[1..], WalletKey, w.id);
    TotalBalanceUncons(t, u);
    UniqueKeysTail(t, WalletKey);
    if t[0] == w {
      assert d == Remove(t[1..], WalletKey, w.id);
      RemoveMissing(t[1..], WalletKey, w.id);
    } else {
      var j :| 0 <= j < |t| && t[j] == w;
      assert WalletKey(t[0]) != WalletKey(t[j]);
      assert t[1..][j - 1] == w;
      TotalAfterRemove(t[1..], u, w);
      assert d[1..] == Remove(t[1..], WalletKey, w.id);
      TotalBalanceUncons(d, u);
    }
  }

  /* ---------------- the dialog ---------------- */

  /** The dialog's two messages, in the order it tests them. */
  datatype WalletError = BlankName | BadBalance

  /** What the save button of the dialog passes on: an error, or the trimmed name and the balance. */
  datatype DialogResult = DialogError(error: WalletError) | Confirmed(name: string, balance: real)

  /**
   * `WalletEditDialog`'s save button: a blank name first, then an
   * unparsable balance; any parsed balance is accepted, negative or zero
   * included.
   */
  function CheckDialog(name: string, bal: Option<real>): (r: DialogResult)
    ensures r == DialogError(BlankName) <==> IsBlank(name)
    ensures r == DialogError(BadBalance) <==> !IsBlank(name) && bal.None?
    ensures r.Confirmed? <==> !IsBlank(name) && bal.Some?
    ensures r.Confirmed? ==> r.name == Trim(name) && bal == Some(r.balance)
  {
    if IsBlank(name) then DialogError(BlankName)
    else if bal.None? then DialogError(BadBalance)
    else Confirmed(Trim(name), bal.value)
  }

  /** A confirmed name is never blank and already trimmed. */
  lemma ConfirmedNameTrimmed(name: string, bal: Option<real>)
    requires CheckDialog(name, bal).Confirmed?
    ensures var n := CheckDialog(name, bal).name;
            n != [] && !IsBlank(n) && Trim(n) == n
  {
    TrimmedNotBlank(name);
    TrimIdempotent(name);
  }

  /** The state after the add dialog's insert: the new wallet under the next id. */
  function AddEffect(s: Store.Snapshot, u: int, name: string, balance: real): Store.Snapshot
  {
    var k := AutoKey(0, s.walletSeq);
    s.(wallets := Upsert(s.wallets, WalletKey, NewWallet(u, name, balance).(id := k)),
       walletSeq := NextCounter(s.walletSeq, k))
  }

  /**
   * Adding a wallet appends it under the next AUTOINCREMENT id and raises
   * the user's total by the typed balance.
   */
  lemma AddRaisesTotal(s: Store.Snapshot, u: int, name: string, balance: real)
    requires s.Valid()
    ensures AddEffect(s, u, name, balance).wallets == s.wallets + [NewWallet(u, name, balance).(id := s.walletSeq + 1)]
    ensures AddEffect(s, u, name, balance).walletSeq == s.walletSeq + 1
    ensures TotalBalance(AddEffect(s, u, name, balance).wallets, u) == TotalBalance(s.wallets, u) + balance
  {
    var x := NewWallet(u, name, balance).(id := s.walletSeq + 1);
    UpsertFreshAppends(s.wallets, WalletKey, x, s.walletSeq);
    TotalAppend(s.wallets, x, u);
  }

  /**
   * Editing one of the user's wallets moves the user's total by the
   * difference between the typed balance and the stored one.
   */
  lemma EditMovesTotal(s: Store.Snapshot, u: int, w: Wallet, name: string, balance: real)
    requires s.Valid() && w in s.wallets && w.userId == u
    ensures TotalBalance(Overwrite(s.wallets, WalletKey, w.(name := name, balance := balance)), u)
            == TotalBalance(s.wallets, u) - w.balance + balance
  {
    TotalAfterOverwrite(s.wallets, u, w, w.(name := name, balance := balance));
  }

  /** Deleting one of the user's wallets takes its balance out of the user's total. */
  lemma DeleteLowersTotal(s: Store.Snapshot, u: int, w: Wallet)
    requires s.Valid() && w in s.wallets && w.userId == u
    ensures TotalBalance(Remove(s.wallets, WalletKey, w.id), u) == TotalBalance(s.wallets, u) - w.balance
  {
    TotalAfterRemove(s.wallets, u, w);
  }

  /** The screen's writes, all through the wallet DAO. */
  class Handlers {
    const db: Store.Store
    const userId: int

    constructor (db: Store.Store, u: int)
      ensures this.db == db && userId == u
    {
      this.db := db;
      userId := u;
    }

    /** Add: `insertWallet(Wallet(userId, name, balance))` with the confirmed values. */
    method Add(name: string, bal: Option<real>) returns (r: DialogResult)
      requires db.Valid()
      modifies db
      ensures db.Valid()
      ensures r == CheckDialog(name, bal)
      ensures r.Confirmed? ==> db.State() == AddEffect(old(db.State()), userId, r.name, r.balance)
      ensures !r.Confirmed? ==> db.State() == old(db.State())
    {
      r := CheckDialog(name, bal);
      if r.Confirmed? {
        db.InsertWallet(NewWallet(userId, r.name, r.balance));
      }
    }

    /** Edit: `updateWallet(w.copy(name, balance))`; the typed balance replaces the stored one. */
    method Edit(w: Wallet, name: string, bal: Option<real>) returns (r: DialogResult)
      requires db.Valid()
      modifies db
      ensures db.Valid()
      ensures r == CheckDialog(name, bal)
      ensures r.Confirmed? ==> db.State() == old(db.State()).(
        wallets := Overwrite(old(db.wallets), WalletKey, w.(name := r.name, balance := r.balance)))
      ensures !r.Confirmed? ==> db.State() == old(db.State())
    {
      r := CheckDialog(name, bal);
      if r.Confirmed? {
        db.UpdateWallet(w.(name := r.name, balance := r.balance));
      }
    }

    /** Delete: `deleteWallet(w)` after the confirmation; the transactions that name it stay. */
    method Delete(w: Wallet)
      requires db.Valid()
      modifies db
      ensures db.Valid()
      ensures db.State() == old(db.State()).(wallets := Remove(old(db.wallets), WalletKey, w.id))
    {
      db.DeleteWallet(w);
    }
  }
}
