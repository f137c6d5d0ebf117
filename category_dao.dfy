/**
 * The queries of `CategoryDao`, and what `insertMany` (plain `@Insert`,
 * ABORT on a key clash, run by Room in one transaction) does to the table.
 * The single-row writes are methods of `Store.Store`.
 */
module CategoryDao {
  import opened Wrappers
  import opened Rows
  import opened Entities

  function OfUser(u: int): Category -> bool
  {
    (c: Category) => c.userId == u
  }

  function OfType(u: int, kind: string): Category -> bool
  {
    (c: Category) => c.userId == u && c.kind == kind
  }

  /** `getAllCategories` / `getAllCategoriesOnce`: the user's categories in storage order. */
  function AllCategories(t: seq<Category>, u: int): (r: seq<Category>)
    ensures forall c :: c in r <==> c in t && c.userId == u
  {
    Filter(t, OfUser(u))
  }

  /** `getCategoriesByType`: the user's categories of one type. */
  function CategoriesByType(t: seq<Category>, u: int, kind: string): (r: seq<Category>)
    ensures forall c :: c in r <==> c in t && c.userId == u && c.kind == kind
  {
    Filter(t, OfType(u, kind))
  }

  /** `countAll`: `COUNT(*)` over the user's rows. */
  function CountAll(t: seq<Category>, u: int): nat
  {
    Count(t, OfUser(u))
  }

  /** The count agrees with the list the screens show. */
  lemma CountAllIsListSize(t: seq<Category>, u: int)
    ensures CountAll(t, u) == |AllCategories(t, u)|
  {
    CountIsFilterLength(t, OfUser(u));
  }

  /**
   * One `@Insert` (ABORT) with the AUTOINCREMENT counter: the stored id is
   * the given one, or counter + 1 for id 0; a clash stores nothing.
   */
  function InsertOne(t: seq<Category>, counter: int, c: Category): Option<(seq<Category>, int)>
  {
    var k := AutoKey(c.id, counter);
    if HasKey(t, CategoryKey, k) then None
    else Some((t + [c.(id := k)], NextCounter(counter, k)))
  }

  /** `insertMany`: the rows in list order, all of them or (on the first clash) none. */
  function InsertAll(t: seq<Category>, counter: int, cs: seq<Category>): Option<(seq<Category>, int)>
    decreases |cs|
  {
    if cs == [] then Some((t, counter))
    else match InsertOne(t, counter, cs[0])
      case None => None
      case Some(next) => InsertAll(next.0, next.1, cs[1..])
  }

  /** The counter is the AUTOINCREMENT bound of the table: no stored key exceeds it. */
  predicate Counted(t: seq<Category>, counter: int)
  {
    UniqueKeys(t, CategoryKey) && KeysAtMost(t, CategoryKey, counter)
  }

  /** One successful insert appends one row with the same fields and keeps the keys unique. */
  lemma InsertOneSpec(t: seq<Category>, counter: int, c: Category)
    requires Counted(t, counter)
    ensures InsertOne(t, counter, c).None? <==> c.id != 0 && HasKey(t, CategoryKey, c.id)
    ensures InsertOne(t, counter, c).Some? ==>
      var (t2, c2) := InsertOne(t, counter, c).value;
      t2 == t + [c.(id := AutoKey(c.id, counter))] && Counted(t2, c2) && c2 >= counter
  {
    var k := AutoKey(c.id, counter);
    if c.id == 0 {
      assert !HasKey(t, CategoryKey, k);
    }
    if !HasKey(t, CategoryKey, k) {
      var t2 := t + [c.(id := k)];
      assert forall i :: 0 <= i < |t| ==> t2[i] == t[i];
      assert CategoryKey(t2[|t|]) == k;
    }
  }

  /**
   * A successful `insertMany` appends exactly one row per list entry, in
   * list order, each with the entry's fields and its own or a fresh id.
   */
  lemma {:induction false} InsertAllAppends(t: seq<Category>, counter: int, cs: seq<Category>)
    requires Counted(t, counter)
    ensures InsertAll(t, counter, cs).Some? ==>
      var (t2, c2) := InsertAll(t, counter, cs).value;
      |t2| == |t| + |cs| && t2[..|t|] == t && Counted(t2, c2) && c2 >= counter
      && forall i :: 0 <= i < |cs| ==>
           t2[|t| + i] == cs[i].(id := t2[|t| + i].id) && (cs[i].id != 0 ==> t2[|t| + i].id == cs[i].id)
    decreases |cs|
  {
    if cs != [] && InsertOne(t, counter, cs[0]).Some? {
      InsertOneSpec(t, counter, cs[0]);
      var (t1, c1) := InsertOne(t, counter, cs[0]).value;
      InsertAllAppends(t1, c1, cs[1..]);
      if InsertAll(t1, c1, cs[1..]).Some? {
        var (t2, c2) := InsertAll(t1, c1, cs[1..]).value;
        assert t2[..|t1|] == t1;
        assert t2[..|t|] == t1[..|t|];
        forall i | 0 <= i < |cs|
          ensures t2[|t| + i] == cs[i].(id := t2[|t| + i].id) && (cs[i].id != 0 ==> t2[|t| + i].id == cs[i].id)
        {
          if i == 0 {
            assert t2[|t|] == t1[|t|];
          } else {
            assert cs[i] == cs[1..][i - 1];
            assert |t| + i == |t1| + (i - 1);
          }
        }
      }
    }
  }

  /** Entries that leave the id to the database never clash, so seeding default categories succeeds. */
  lemma {:induction false} InsertAllFreshSucceeds(t: seq<Category>, counter: int, cs: seq<Category>)
    requires Counted(t, counter)
    requires forall c :: c in cs ==> c.id == 0
    ensures InsertAll(t, counter, cs).Some?
    decreases |cs|
  {
    if cs != [] {
      InsertOneSpec(t, counter, cs[0]);
      var (t1, c1) := InsertOne(t, counter, cs[0]).value;
      assert forall c :: c in cs[1..] ==> c in cs;
      InsertAllFreshSucceeds(t1, c1, cs[1..]);
    }
  }

  /**
   * An entry anywhere in the list whose id is already stored aborts the
   * whole list: the table is left as it was. The rows inserted before it
   * only add to the table, so the clashing key is still there when its
   * turn comes.
   */
  lemma {:induction false} InsertAllClash(t: seq<Category>, counter: int, cs: seq<Category>)
    requires Counted(t, counter)
    requires exists i :: 0 <= i < |cs| && cs[i].id != 0 && HasKey(t, CategoryKey, cs[i].id)
    ensures InsertAll(t, counter, cs).None?
    decreases |cs|
  {
    var i :| 0 <= i < |cs| && cs[i].id != 0 && HasKey(t, CategoryKey, cs[i].id);
    InsertOneSpec(t, counter, cs[0]);
    if i > 0 && InsertOne(t, counter, cs[0]).Some? {
      var (t1, c1) := InsertOne(t, counter, cs[0]).value;
      assert HasKey(t1, CategoryKey, cs[i].id) by {
        var j :| 0 <= j < |t| && CategoryKey(t[j]) == cs[i].id;
        assert t1[j] == t[j];
      }
      assert cs[1..][i - 1] == cs[i];
      InsertAllClash(t1, c1, cs[1..]);
    }
  }
}
