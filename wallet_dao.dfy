/**
 * The queries of `WalletDao` and the table that `updateBalanceDelta`
 * leaves behind. The writes themselves are methods of `Store.Store`.
 */
module WalletDao {
  import opened Wrappers
  import opened Rows
  import opened Entities

  function OfUser(u: int): Wallet -> bool
  {
    (w: Wallet) => w.userId == u
  }

  function WithId(u: int, id: int): Wallet -> bool
  {
    (w: Wallet) => w.userId == u && w.id == id
  }

  /** `getAllWallets` / `getAllWalletsOnce`: the user's wallets, in storage order. */
  function AllWallets(t: seq<Wallet>, u: int): (r: seq<Wallet>)
    ensures forall w :: w in r <==> w in t && w.userId == u
  {
    Filter(t, OfUser(u))
  }

  /** `getWalletById`: the wallet with this id, but only when the user owns it. */
  function WalletById(t: seq<Wallet>, u: int, id: int): (r: Option<Wallet>)
    ensures r.Some? ==> r.value in t && r.value.userId == u && r.value.id == id
    ensures r.None? <==> forall w :: w in t ==> !(w.userId == u && w.id == id)
  {
    FirstWhere(t, WithId(u, id))
  }

  /** The wallet that `UPDATE ... WHERE userId = u AND id = w` hits. */
  predicate Hit(x: Wallet, u: int, w: int)
  {
    x.userId == u && x.id == w
  }

  /**
   * `SET balance = balance + delta WHERE userId = u AND id = w`. Only the
   * balance of the hit row changes: every row keeps its id, owner, name,
   * icon and colour, and a row that misses either condition stays as it was.
   */
  function ApplyDelta(t: seq<Wallet>, u: int, w: int, d: real): (r: seq<Wallet>)
    ensures |r| == |t|
    ensures forall i :: 0 <= i < |t| ==>
      r[i].id == t[i].id && r[i].userId == t[i].userId && r[i].name == t[i].name
      && r[i].icon == t[i].icon && r[i].color == t[i].color
      && r[i].balance == (if Hit(t[i], u, w) then t[i].balance + d else t[i].balance)
    ensures forall i :: 0 <= i < |t| && !Hit(t[i], u, w) ==> r[i] == t[i]
  {
    seq(|t|, i requires 0 <= i < |t| => Bumped(t[i], u, w, d))
  }

  /** One row under the update. */
  function Bumped(x: Wallet, u: int, w: int, d: real): Wallet
  {
    if Hit(x, u, w) then x.(balance := x.balance + d) else x
  }

  /** The update works row by row. */
  lemma ApplyDeltaCons(t: seq<Wallet>, u: int, w: int, d: real)
    requires t != []
    ensures ApplyDelta(t, u, w, d)[0] == Bumped(t[0], u, w, d)
    ensures ApplyDelta(t, u, w, d)[1..] == ApplyDelta(t[1..], u, w, d)
  {
  }

  /** Two deltas in a row on one wallet are one delta of their sum. */
  lemma ApplyDeltaTwice(t: seq<Wallet>, u: int, w: int, d1: real, d2: real)
    ensures ApplyDelta(ApplyDelta(t, u, w, d1), u, w, d2) == ApplyDelta(t, u, w, d1 + d2)
  {
    var a, b := ApplyDelta(ApplyDelta(t, u, w, d1), u, w, d2), ApplyDelta(t, u, w, d1 + d2);
    forall i | 0 <= i < |t| ensures a[i] == b[i] {
      assert Hit(ApplyDelta(t, u, w, d1)[i], u, w) == Hit(t[i], u, w);
    }
  }

  /** A delta of zero changes nothing. */
  lemma ApplyDeltaZero(t: seq<Wallet>, u: int, w: int)
    ensures ApplyDelta(t, u, w, 0.0) == t
  {
    assert forall i :: 0 <= i < |t| ==> ApplyDelta(t, u, w, 0.0)[i] == t[i];
  }

  /** The update keeps the ids, so it keeps them unique. */
  lemma ApplyDeltaKeepsKeys(t: seq<Wallet>, u: int, w: int, d: real, n: int)
    requires UniqueKeys(t, WalletKey) && KeysAtMost(t, WalletKey, n)
    ensures UniqueKeys(ApplyDelta(t, u, w, d), WalletKey) && KeysAtMost(ApplyDelta(t, u, w, d), WalletKey, n)
  {
    var r := ApplyDelta(t, u, w, d);
    assert forall i :: 0 <= i < |t| ==> WalletKey(r[i]) == WalletKey(t[i]);
  }

  /** A wallet of another user is invisible to `getWalletById`. */
  lemma WalletByIdOtherUser(t: seq<Wallet>, u: int, x: Wallet)
    requires UniqueKeys(t, WalletKey)
    requires x in t && x.userId != u
    ensures WalletById(t, u, x.id) == None
  {
    forall y | y in t ensures !(y.userId == u && y.id == x.id) {
      var i :| 0 <= i < |t| && t[i] == y;
      var j :| 0 <= j < |t| && t[j] == x;
      assert WalletKey(t[i]) == y.id && WalletKey(t[j]) == x.id;
    }
  }
}
