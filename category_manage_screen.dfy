/**
 * `CategoryManageScreen`: the user's categories, narrowed by a search box
 * and split into an expense section and an income section, with add, edit
 * and a delete that refuses a category still named by a transaction.
 * Kotlin's `lowercase()` is the parameter `lower`: the model does not fix
 * the Unicode case mapping.
 */
module CategoryManageScreen {
  import opened Wrappers
  import opened Rows
  import opened Text
  import opened Entities
  import opened ExpenseDao
  import CategoryDao
  import Store

  /** `it.name.lowercase().contains(q) || it.type.lowercase().contains(q)`. */
  function Matches(lower: string -> string, q: string): Category -> bool
  {
    (c: Category) => Contains(lower(c.name), q) || Contains(lower(c.kind), q)
  }

  /**
   * `filtered`: with `q = query.trim().lowercase()`, every category when
   * `q` is empty, otherwise those whose lower-cased name or type contains
   * `q`, in list order.
   */
  function Filtered(cats: seq<Category>, query: string, lower: string -> string): (r: seq<Category>)
    ensures forall c :: c in r <==> c in cats && (lower(Trim(query)) == [] || Matches(lower, lower(Trim(query)))(c))
  {
    var q := lower(Trim(query));
    if q == [] then cats else Filter(cats, Matches(lower, q))
  }

  /**
   * Filtering keeps the list's order: the result is the list of the
   * categories that pass the test, so a second filter with the same query
   * changes nothing.
   */
  lemma FilteredIdempotent(cats: seq<Category>, query: string, lower: string -> string)
    ensures Filtered(Filtered(cats, query, lower), query, lower) == Filtered(cats, query, lower)
  {
    var q := lower(Trim(query));
    if q != [] {
      FilterFilter(cats, Matches(lower, q), Matches(lower, q), Matches(lower, q));
    }
  }

  /** A blank search box shows every category (when lower-casing the empty text gives the empty text). */
  lemma BlankQueryShowsAll(cats: seq<Category>, query: string, lower: string -> string)
    requires IsBlank(query) && lower([]) == []
    ensures Filtered(cats, query, lower) == cats
  {
    TrimEmptyIffBlank(query);
  }

  function OfKind(kind: string): Category -> bool
  {
    (c: Category) => c.kind == kind
  }

  /** `expenseCats`. */
  function ExpenseSection(filtered: seq<Category>): (r: seq<Category>)
    ensures forall c :: c in r <==> c in filtered && c.kind == ExpenseKind
  {
    Filter(filtered, OfKind(ExpenseKind))
  }

  /** `incomeCats`. */
  function IncomeSection(filtered: seq<Category>): (r: seq<Category>)
    ensures forall c :: c in r <==> c in filtered && c.kind == IncomeKind
  {
    Filter(filtered, OfKind(IncomeKind))
  }

  /**
   * The empty-list message shows exactly when no listed category has type
   * "expense" or "income": a category of any other type is listed in
   * neither section.
   */
  lemma EmptyMessage(filtered: seq<Category>)
    ensures ExpenseSection(filtered) == [] && IncomeSection(filtered) == []
            <==> forall c :: c in filtered ==> c.kind != ExpenseKind && c.kind != IncomeKind
  {
    var e, i := ExpenseSection(filtered), IncomeSection(filtered);
    assert e != [] ==> e[0] in e;
    assert i != [] ==> i[0] in i;
  }

  /**
   * Searching for a type's own name lists every category of that type in
   * its section, whatever the categories are called (when lower-casing
   * leaves the type name as it is).
   */
  lemma TypeNameQueryListsSection(cats: seq<Category>, query: string, lower: string -> string)
    requires lower(Trim(query)) == ExpenseKind && lower(ExpenseKind) == ExpenseKind
    ensures forall c :: c in cats && c.kind == ExpenseKind ==> c in ExpenseSection(Filtered(cats, query, lower))
  {
    ContainsSelf(ExpenseKind);
  }

  /** The add and edit dialogs: a blank name is never saved, and the saved name is trimmed. */
  function NameToSave(name: string): (r: Option<string>)
    ensures r.None? <==> IsBlank(name)
    ensures r.Some? ==> r.value != [] && !IsBlank(r.value) && Trim(r.value) == r.value
  {
    if IsBlank(name) then None
    else
      TrimmedNotBlank(name);
      TrimIdempotent(name);
      Some(Trim(name))
  }

  /** The add dialog's row: `Category(userId, name.trim(), type)`, with id 0 left to the database. */
  function NewCategory(u: int, name: string, kind: string): (r: Option<Category>)
    ensures r.None? <==> IsBlank(name)
    ensures r.Some? ==> r.value.id == 0 && r.value.userId == u && r.value.kind == kind && Some(r.value.name) == NameToSave(name)
  {
    match NameToSave(name)
    case None => None
    case Some(n) => Some(Category(0, u, n, kind))
  }

  /** The edit dialog's row: `target.copy(name = name.trim(), type = type)`. */
  function EditedCategory(target: Category, name: string, kind: string): (r: Option<Category>)
    ensures r.None? <==> IsBlank(name)
    ensures r.Some? ==> r.value.id == target.id && r.value.userId == target.userId && r.value.kind == kind
                        && Some(r.value.name) == NameToSave(name)
  {
    match NameToSave(name)
    case None => None
    case Some(n) => Some(target.(name := n, kind := kind))
  }

  /** The screen's writes. */
  class Handlers {
    const db: Store.Store
    const userId: int

    constructor (db: Store.Store, u: int)
      ensures this.db == db && userId == u
    {
      this.db := db;
      userId := u;
    }

    /** Add: a blank name writes nothing; otherwise `insertCategory`. */
    method Add(name: string, kind: string) returns (saved: bool)
      requires db.Valid()
      modifies db
      ensures db.Valid()
      ensures saved <==> NewCategory(userId, name, kind).Some?
      ensures saved ==> db.State() == old(db.State()).(
        categories := Upsert(old(db.categories), CategoryKey, NewCategory(userId, name, kind).value.(id := old(db.categorySeq) + 1)),
        categorySeq := old(db.categorySeq) + 1)
      ensures !saved ==> db.State() == old(db.State())
    {
      if IsBlank(name) {
        return false;
      }
      TrimmedNotBlank(name);
      TrimIdempotent(name);
      db.InsertCategory(Category(0, userId, Trim(name), kind));
      saved := true;
    }

    /** Edit: a blank name writes nothing; otherwise `updateCategory` of the renamed target. */
    method Edit(target: Category, name: string, kind: string) returns (saved: bool)
      requires db.Valid()
      modifies db
      ensures db.Valid()
      ensures saved <==> EditedCategory(target, name, kind).Some?
      ensures saved ==> db.State() == old(db.State()).(
        categories := Overwrite(old(db.categories), CategoryKey, EditedCategory(target, name, kind).value))
      ensures !saved ==> db.State() == old(db.State())
    {
      if IsBlank(name) {
        return false;
      }
      TrimmedNotBlank(name);
      TrimIdempotent(name);
      db.UpdateCategory(target.(name := Trim(name), kind := kind));
      saved := true;
    }

    /**
     * Delete: `countByCategory(userId, cat.id) > 0` refuses with a message;
     * otherwise `deleteCategory`. Budgets naming the category are not
     * checked and stay.
     */
    method Delete(cat: Category) returns (deleted: bool)
      requires db.Valid()
      modifies db
      ensures db.Valid()
      ensures deleted <==> CountByCategory(old(db.expenses), userId, cat.id) == 0
      ensures deleted ==> db.State() == old(db.State()).(categories := Remove(old(db.categories), CategoryKey, cat.id))
      ensures !deleted ==> db.State() == old(db.State())
    {
      var used := CountByCategory(db.expenses, userId, cat.id) > 0;
      if used {
        return false;
      }
      db.DeleteCategory(cat);
      deleted := true;
    }
  }

  /**
   * The delete guard leaves no dangling reference among the user's
   * transactions: after a delete that went through, every transaction of
   * the user still names a category id the table holds.
   */
  lemma DeleteLeavesNoDangling(s: Store.Snapshot, u: int, cat: Category)
    requires s.Valid()
    requires CountByCategory(s.expenses, u, cat.id) == 0
    requires forall e :: e in s.expenses && e.userId == u ==> exists c :: c in s.categories && c.id == e.categoryId
    ensures forall e :: e in s.expenses && e.userId == u ==>
              exists c :: c in Remove(s.categories, CategoryKey, cat.id) && c.id == e.categoryId
  {
    RemoveSpec(s.categories, CategoryKey, cat.id);
    forall e | e in s.expenses && e.userId == u
      ensures exists c :: c in Remove(s.categories, CategoryKey, cat.id) && c.id == e.categoryId
    {
      var c :| c in s.categories && c.id == e.categoryId;
      assert e.categoryId != cat.id;
      assert c in Remove(s.categories, CategoryKey, cat.id);
    }
  }
}
