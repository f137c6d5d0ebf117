/**
 * `WalletRepository`: the total balance of a user's wallets, and the
 * writes it hands to the DAO unchanged.
 */
module WalletRepository {
  import opened Rows
  import opened Entities
  import opened WalletDao
  import Store

  /** `totalBalance`: the sum of the balances of the user's wallets. */
  function TotalBalance(t: seq<Wallet>, u: int): real
  {
    Sum(AllWallets(t, u), Balance)
  }

  /** A user without wallets has a total of 0. */
  lemma TotalBalanceNoWallets(t: seq<Wallet>, u: int)
    requires forall w :: w in t ==> w.userId != u
    ensures TotalBalance(t, u) == 0.0
  {
    CountIsFilterLength(t, OfUser(u));
    CountPositive(t, OfUser(u));
  }

  /** A wallet of another user, added anywhere in the table, does not change the total. */
  lemma TotalBalanceIgnoresOthers(a: seq<Wallet>, b: seq<Wallet>, u: int, x: Wallet)
    requires x.userId != u
    ensures TotalBalance(a + [x] + b, u) == TotalBalance(a + b, u)
  {
    FilterAppend(a + [x], b, OfUser(u));
    FilterAppend(a, [x], OfUser(u));
    FilterCons(x, [], OfUser(u));
    FilterAppend(a, b, OfUser(u));
    assert Filter(a, OfUser(u)) + [] == Filter(a, OfUser(u));
  }

  /** The total read row by row: the first wallet counts exactly when the user owns it. */
  lemma TotalBalanceUncons(t: seq<Wallet>, u: int)
    requires t != []
    ensures TotalBalance(t, u) == (if t[0].userId == u then t[0].balance else 0.0) + TotalBalance(t[1..], u)
  {
    assert t == [t[0]] + t[1..];
    FilterCons(t[0], t[1..], OfUser(u));
    if t[0].userId == u {
      SumCons(t[0], Filter(t[1..], OfUser(u)), Balance);
    } else {
      assert [] + Filter(t[1..], OfUser(u)) == Filter(t[1..], OfUser(u));
    }
  }

  /** A balance change on another user's wallet does not change the total. */
  lemma {:induction false} TotalBalanceOtherUsersDelta(t: seq<Wallet>, u: int, v: int, w: int, d: real)
    requires v != u
    ensures TotalBalance(ApplyDelta(t, v, w, d), u) == TotalBalance(t, u)
  {
    if t != [] {
      var r := ApplyDelta(t, v, w, d);
      ApplyDeltaCons(t, v, w, d);
      TotalBalanceOtherUsersDelta(t[1..], u, v, w, d);
      TotalBalanceUncons(r, u);
      TotalBalanceUncons(t, u);
    }
  }

  /** An update that hits no row leaves the table as it was. */
  lemma ApplyDeltaMissing(t: seq<Wallet>, u: int, w: int, d: real)
    requires forall x :: x in t ==> !Hit(x, u, w)
    ensures ApplyDelta(t, u, w, d) == t
  {
    forall i | 0 <= i < |t| ensures ApplyDelta(t, u, w, d)[i] == t[i] {
      assert t[i] in t;
    }
  }

  /**
   * `updateBalanceDelta(u, w, d)` on a wallet `u` owns moves `totalBalance(u)`
   * by exactly `d`; on a wallet id `u` does not own it moves nothing.
   */
  lemma {:induction false} TotalBalanceAfterDelta(t: seq<Wallet>, u: int, w: int, d: real)
    requires UniqueKeys(t, WalletKey)
    ensures TotalBalance(ApplyDelta(t, u, w, d), u)
         == TotalBalance(t, u) + (if WalletById(t, u, w).Some? then d else 0.0)
  {
    if t != [] {
      var r := ApplyDelta(t, u, w, d);
      ApplyDeltaCons(t, u, w, d);
      TotalBalanceUncons(r, u);
      TotalBalanceUncons(t, u);
      if Hit(t[0], u, w) {
        forall x | x in t[1..] ensures !Hit(x, u, w) {
          var j :| 0 <= j < |t| - 1 && t[1..][j] == x;
          assert t[j + 1] == x && WalletKey(t[j + 1]) != WalletKey(t[0]);
        }
        ApplyDeltaMissing(t[1..], u, w, d);
        assert t[0] in t;
      } else {
        assert UniqueKeys(t[1..], WalletKey) by {
          forall i, j | 0 <= i < |t| - 1 && 0 <= j < |t| - 1 && WalletKey(t[1..][i]) == WalletKey(t[1..][j])
            ensures i == j
          {
            assert WalletKey(t[i + 1]) == WalletKey(t[j + 1]);
          }
        }
        TotalBalanceAfterDelta(t[1..], u, w, d);
        assert t == [t[0]] + t[1..];
        assert WalletById(t, u, w).Some? <==> WalletById(t[1..], u, w).Some?;
      }
    }
  }

  /** The repository's writes: each hands the wallet to the DAO as it is. */
  class WalletRepository {
    const dao: Store.Store

    constructor (dao: Store.Store)
      ensures this.dao == dao
    {
      this.dao := dao;
    }

    method Insert(w: Wallet)
      requires dao.Valid()
      modifies dao
      ensures dao.Valid()
      ensures dao.State() == old(dao.State()).(
        wallets := Upsert(old(dao.wallets), WalletKey, w.(id := AutoKey(w.id, old(dao.walletSeq)))),
        walletSeq := NextCounter(old(dao.walletSeq), AutoKey(w.id, old(dao.walletSeq))))
    {
      dao.InsertWallet(w);
    }

    method Update(w: Wallet)
      requires dao.Valid()
      modifies dao
      ensures dao.Valid()
      ensures dao.State() == old(dao.State()).(wallets := Overwrite(old(dao.wallets), WalletKey, w))
    {
      dao.UpdateWallet(w);
    }

    method Delete(w: Wallet)
      requires dao.Valid()
      modifies dao
      ensures dao.Valid()
      ensures dao.State() == old(dao.State()).(wallets := Remove(old(dao.wallets), WalletKey, w.id))
    {
      dao.DeleteWallet(w);
    }

    method UpdateBalanceDelta(u: int, w: int, delta: real)
      requires dao.Valid()
      modifies dao
      ensures dao.Valid()
      ensures dao.State() == old(dao.State()).(wallets := ApplyDelta(old(dao.wallets), u, w, delta))
    {
      dao.UpdateBalanceDelta(u, w, delta);
    }
  }
}
