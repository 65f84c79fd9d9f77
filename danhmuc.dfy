// Categories (DanhMucController): one list shared by every user, split into
// expense and income categories, with the (name, kind) pair kept unique by
// the write actions and a category in use protected from deletion.
module DanhMuc {
  import opened Common
  import opened Entities
  import opened Store

  /** The two lists of the category page. */
  datatype CategoryLists = CategoryLists(expenseCategories: seq<Category>, incomeCategories: seq<Category>)

  /**
   * GET Index: expense categories, narrowed to one group when a group is
   * given, and income categories; a kind filter of "ChiTieu" or "ThuNhap"
   * empties the other list.
   */
  function CategoryIndex(categories: seq<Category>, loai: Option<string>, nhom: Option<string>): (r: CategoryLists)
    ensures forall c :: c in r.expenseCategories <==>
      (c in categories && c.kind == KindExpense && (NullOrEmpty(nhom) || c.group == nhom) && loai != Some(KindIncome))
    ensures forall c :: c in r.incomeCategories <==>
      (c in categories && c.kind == KindIncome && loai != Some(KindExpense))
  {
    var expenseKinds := Filter(categories, (c: Category) => c.kind == KindExpense && (NullOrEmpty(nhom) || c.group == nhom));
    var incomeKinds := Filter(categories, (c: Category) => c.kind == KindIncome);
    if loai == Some(KindExpense) then CategoryLists(expenseKinds, [])
    else if loai == Some(KindIncome) then CategoryLists([], incomeKinds)
    else CategoryLists(expenseKinds, incomeKinds)
  }

  /** No category is in both lists, and without filters every stored category is listed. */
  lemma CategoryIndexPartitions(categories: seq<Category>, loai: Option<string>, nhom: Option<string>)
    requires forall i :: 0 <= i < |categories| ==> CategoryKindAllowed(categories[i])
    ensures forall c :: c in CategoryIndex(categories, loai, nhom).expenseCategories ==>
      c !in CategoryIndex(categories, loai, nhom).incomeCategories
    ensures NullOrEmpty(loai) && NullOrEmpty(nhom) ==>
      forall c :: c in categories ==>
        c in CategoryIndex(categories, loai, nhom).expenseCategories + CategoryIndex(categories, loai, nhom).incomeCategories
  {
    var r := CategoryIndex(categories, loai, nhom);
    forall c | c in categories && NullOrEmpty(loai) && NullOrEmpty(nhom)
      ensures c in r.expenseCategories + r.incomeCategories
    {
      var i :| 0 <= i < |categories| && categories[i] == c;
      assert CategoryKindAllowed(categories[i]);
    }
  }

  /**
   * The two lists together hold each category at most as often as it is
   * stored, so no category is listed twice when the keys are distinct.
   */
  lemma CategoryIndexListsOnce(categories: seq<Category>, loai: Option<string>, nhom: Option<string>, c: Category)
    ensures multiset(CategoryIndex(categories, loai, nhom).expenseCategories)[c] +
      multiset(CategoryIndex(categories, loai, nhom).incomeCategories)[c] <= multiset(categories)[c]
    ensures (forall i, j :: 0 <= i < j < |categories| ==> categories[i].id != categories[j].id) ==>
      multiset(CategoryIndex(categories, loai, nhom).expenseCategories)[c] +
      multiset(CategoryIndex(categories, loai, nhom).incomeCategories)[c] <= 1
  {
    var r := CategoryIndex(categories, loai, nhom);
    var pe := (x: Category) => x.kind == KindExpense && (NullOrEmpty(nhom) || x.group == nhom);
    var pi := (x: Category) => x.kind == KindIncome;
    FilterCounts(categories, pe);
    FilterCounts(categories, pi);
    var e := multiset(Filter(categories, pe))[c];
    var n := multiset(Filter(categories, pi))[c];
    assert e + n <= multiset(categories)[c] by {
      if c.kind == KindIncome {
        assert e == 0;
      } else {
        assert n == 0;
      }
    }
    assert multiset(r.expenseCategories)[c] <= e;
    assert multiset(r.incomeCategories)[c] <= n;
    if forall i, j :: 0 <= i < j < |categories| ==> categories[i].id != categories[j].id {
      DistinctOnce(categories, (x: Category) => x.id, c);
    }
  }

  // ----- Create / Edit ----------------------------------------------------------

  predicate SameName(a: Category, b: Category)
  {
    a.name == b.name && a.kind == b.kind
  }

  /** No two categories share a name within a kind. */
  predicate UniqueNames(categories: seq<Category>)
  {
    forall i, j :: 0 <= i < j < |categories| ==> !SameName(categories[i], categories[j])
  }

  /** Some category other than the one keyed `except` already has the name of `c` in its kind. */
  predicate NameTaken(categories: seq<Category>, c: Category, except: Option<int>)
  {
    exists i :: 0 <= i < |categories| && SameName(categories[i], c) && (except.None? || categories[i].id != except.value)
  }

  lemma AppendFreeName(categories: seq<Category>, c: Category)
    requires UniqueNames(categories) && !NameTaken(categories, c, None)
    ensures UniqueNames(categories + [c])
  {
    var r := categories + [c];
    forall i, j | 0 <= i < j < |r|
      ensures !SameName(r[i], r[j])
    {
      if j == |categories| {
        assert !SameName(categories[i], c);
      }
    }
  }

  lemma ReplaceFreeName(categories: seq<Category>, k: nat, c: Category)
    requires UniqueNames(categories) && k < |categories| && c.id == categories[k].id
    requires forall i, j :: 0 <= i < j < |categories| ==> categories[i].id != categories[j].id
    requires !NameTaken(categories, c, Some(c.id))
    ensures UniqueNames(categories[k := c])
  {
    var r := categories[k := c];
    forall i, j | 0 <= i < j < |r|
      ensures !SameName(r[i], r[j])
    {
      if i == k {
        assert categories[j].id != c.id;
        assert !SameName(categories[j], c);
      } else if j == k {
        assert categories[i].id != c.id;
        assert !SameName(categories[i], c);
      }
    }
  }

  /**
   * POST Create: a valid category whose name is new within its kind is
   * saved; the database refuses a kind other than "ChiTieu" and "ThuNhap".
   */
  method CreateCategory(db: Db, session: Option<int>, posted: Category) returns (outcome: Outcome)
    requires db.Valid()
    modifies db`categories, db`nextCategoryId
    ensures db.Valid()
    ensures session.None? ==> outcome == LoginRequired && unchanged(db)
    ensures session.Some? && (!ValidCategory(posted) || NameTaken(old(db.categories), posted, None)) ==>
      outcome == FormRejected && unchanged(db)
    ensures session.Some? && ValidCategory(posted) && !NameTaken(old(db.categories), posted, None) && !CategoryKindAllowed(posted) ==>
      outcome == Faulted && unchanged(db)
    ensures session.Some? && ValidCategory(posted) && !NameTaken(old(db.categories), posted, None) && CategoryKindAllowed(posted) ==>
      outcome == Saved && db.categories == old(db.categories) + [posted.(id := old(db.nextCategoryId))]
    ensures UniqueNames(old(db.categories)) ==> UniqueNames(db.categories)
  {
    if session.None? {
      return LoginRequired;
    }
    if !ValidCategory(posted) {
      return FormRejected;
    }
    if exists i :: 0 <= i < |db.categories| && SameName(db.categories[i], posted) {
      return FormRejected;
    }
    if !CategoryKindAllowed(posted) {
      return Faulted;
    }
    var row := posted.(id := db.nextCategoryId);
    if UniqueNames(db.categories) {
      AppendFreeName(db.categories, row);
    }
    TableAppend(db.categories, CategoryKey, db.nextCategoryId, CategoryKindAllowed, row);
    db.categories := db.categories + [row];
    db.nextCategoryId := db.nextCategoryId + 1;
    outcome := Saved;
  }

  /**
   * POST Edit: the posted category replaces the row with its key when it is
   * valid and its name is free within its kind among the other rows; a key
   * with no row ends in NotFound, and a kind outside the check constraint in
   * the error page.
   */
  method EditCategory(db: Db, session: Option<int>, id: int, posted: Category) returns (outcome: Outcome)
    requires db.Valid()
    modifies db`categories
    ensures db.Valid()
    ensures session.None? ==> outcome == LoginRequired && unchanged(db)
    ensures session.Some? && id != posted.id ==> outcome == NotFound && unchanged(db)
    ensures session.Some? && id == posted.id && (!ValidCategory(posted) || NameTaken(old(db.categories), posted, Some(id))) ==>
      outcome == FormRejected && unchanged(db)
    ensures session.Some? && id == posted.id && ValidCategory(posted) && !NameTaken(old(db.categories), posted, Some(id)) ==>
      (IndexOfKey(old(db.categories), CategoryKey, id).None? ==> outcome == NotFound && unchanged(db)) &&
      (IndexOfKey(old(db.categories), CategoryKey, id).Some? && !CategoryKindAllowed(posted) ==> outcome == Faulted && unchanged(db)) &&
      (IndexOfKey(old(db.categories), CategoryKey, id).Some? && CategoryKindAllowed(posted) ==>
        outcome == Saved && db.categories == old(db.categories)[IndexOfKey(old(db.categories), CategoryKey, id).value := posted])
    ensures UniqueNames(old(db.categories)) ==> UniqueNames(db.categories)
  {
    if session.None? {
      return LoginRequired;
    }
    if id != posted.id {
      return NotFound;
    }
    if !ValidCategory(posted) {
      return FormRejected;
    }
    if exists i :: 0 <= i < |db.categories| && SameName(db.categories[i], posted) && db.categories[i].id != id {
      return FormRejected;
    }
    var found := IndexOfKey(db.categories, CategoryKey, id);
    if found.None? {
      return NotFound;
    }
    if !CategoryKindAllowed(posted) {
      return Faulted;
    }
    if UniqueNames(db.categories) {
      ReplaceFreeName(db.categories, found.value, posted);
    }
    TableReplace(db.categories, CategoryKey, db.nextCategoryId, CategoryKindAllowed, found.value, posted);
    db.categories := db.categories[found.value := posted];
    outcome := Saved;
  }

  // ----- Delete -----------------------------------------------------------------

  /** Some expense, income or budget refers to the category. */
  predicate InUse(expenses: seq<Expense>, incomes: seq<Income>, budgets: seq<Budget>, id: int)
  {
    (exists e :: e in expenses && e.category == Some(id)) ||
    (exists i :: i in incomes && i.category == Some(id)) ||
    (exists b :: b in budgets && b.category == Some(id))
  }

  predicate Stored(categories: seq<Category>, id: int)
  {
    exists c :: c in categories && c.id == id
  }

  /** Every category an expense, income or budget refers to is stored. */
  predicate NoDangling(categories: seq<Category>, expenses: seq<Expense>, incomes: seq<Income>, budgets: seq<Budget>)
  {
    (forall e :: e in expenses && e.category.Some? ==> Stored(categories, e.category.value)) &&
    (forall i :: i in incomes && i.category.Some? ==> Stored(categories, i.category.value)) &&
    (forall b :: b in budgets && b.category.Some? ==> Stored(categories, b.category.value))
  }

  /** Removing a category nothing refers to leaves no reference dangling. */
  lemma RemoveUnusedKeepsReferences(categories: seq<Category>, k: nat, expenses: seq<Expense>, incomes: seq<Income>, budgets: seq<Budget>)
    requires k < |categories| && NoDangling(categories, expenses, incomes, budgets)
    requires !InUse(expenses, incomes, budgets, categories[k].id)
    ensures NoDangling(RemoveAt(categories, k), expenses, incomes, budgets)
  {
    var r := RemoveAt(categories, k);
    forall id | Stored(categories, id) && id != categories[k].id
      ensures Stored(r, id)
    {
      var c :| c in categories && c.id == id;
      var j :| 0 <= j < |categories| && categories[j] == c;
      assert j != k;
      assert c == r[if j < k then j else j - 1];
    }
  }

  /** What the GET Delete action answers. */
  datatype DeleteView = DeleteToLogin | DeleteNotFound | DeleteRefused | DeleteConfirm(category: Category)

  /**
   * GET Delete: the confirmation page is shown only for a stored category
   * nothing refers to; a category in use redirects to the list with an error
   * message, a missing or unknown key is NotFound.
   */
  function DeletePage(categories: seq<Category>, expenses: seq<Expense>, incomes: seq<Income>, budgets: seq<Budget>,
                      session: Option<int>, id: Option<int>): (r: DeleteView)
    ensures session.None? <==> r == DeleteToLogin
    ensures r == DeleteNotFound <==> session.Some? && (id.None? || !Stored(categories, id.value))
    ensures r == DeleteRefused <==> session.Some? && id.Some? && Stored(categories, id.value) && InUse(expenses, incomes, budgets, id.value)
    ensures r.DeleteConfirm? <==> session.Some? && id.Some? && Stored(categories, id.value) && !InUse(expenses, incomes, budgets, id.value)
    ensures r.DeleteConfirm? ==> r.category in categories && r.category.id == id.value
  {
    if session.None? then DeleteToLogin
    else if id.None? then DeleteNotFound
    else
      var found := IndexOfKey(categories, CategoryKey, id.value);
      if found.None? then
        assert !Stored(categories, id.value) by {
          forall c | c in categories ensures c.id != id.value {
            var j :| 0 <= j < |categories| && categories[j] == c;
          }
        }
        DeleteNotFound
      else if InUse(expenses, incomes, budgets, id.value) then DeleteRefused
      else DeleteConfirm(categories[found.value])
  }

  /** A category the GET page offers to delete can be removed without leaving a reference dangling. */
  lemma DeleteConfirmKeepsReferences(categories: seq<Category>, expenses: seq<Expense>, incomes: seq<Income>, budgets: seq<Budget>,
                                     session: Option<int>, id: Option<int>, k: nat)
    requires DeletePage(categories, expenses, incomes, budgets, session, id).DeleteConfirm?
    requires k < |categories| && categories[k].id == id.value
    requires NoDangling(categories, expenses, incomes, budgets)
    ensures NoDangling(RemoveAt(categories, k), expenses, incomes, budgets)
  {
    RemoveUnusedKeepsReferences(categories, k, expenses, incomes, budgets);
  }

  /**
   * POST Delete: a stored category nothing refers to is removed; one in use
   * is refused with a message; an unknown key changes nothing.
   */
  method DeleteCategory(db: Db, session: Option<int>, id: int) returns (outcome: Outcome)
    requires db.Valid()
    modifies db`categories
    ensures db.Valid()
    ensures session.None? ==> outcome == LoginRequired && unchanged(db)
    ensures session.Some? && IndexOfKey(old(db.categories), CategoryKey, id).None? ==> outcome == Saved && unchanged(db)
    ensures session.Some? && IndexOfKey(old(db.categories), CategoryKey, id).Some? && InUse(db.expenses, db.incomes, db.budgets, id) ==>
      outcome == Refused && unchanged(db)
    ensures session.Some? && IndexOfKey(old(db.categories), CategoryKey, id).Some? && !InUse(db.expenses, db.incomes, db.budgets, id) ==>
      outcome == Saved && db.categories == RemoveAt(old(db.categories), IndexOfKey(old(db.categories), CategoryKey, id).value)
    ensures NoDangling(old(db.categories), db.expenses, db.incomes, db.budgets) ==>
      NoDangling(db.categories, db.expenses, db.incomes, db.budgets)
  {
    if session.None? {
      return LoginRequired;
    }
    var found := IndexOfKey(db.categories, CategoryKey, id);
    if found.None? {
      return Saved;
    }
    if InUse(db.expenses, db.incomes, db.budgets, id) {
      return Refused;
    }
    if NoDangling(db.categories, db.expenses, db.incomes, db.budgets) {
      RemoveUnusedKeepsReferences(db.categories, found.value, db.expenses, db.incomes, db.budgets);
    }
    TableRemove(db.categories, CategoryKey, db.nextCategoryId, CategoryKindAllowed, found.value);
    db.categories := RemoveAt(db.categories, found.value);
    outcome := Saved;
  }
}
