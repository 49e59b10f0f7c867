/**
 * The category and subcategory repositories, internal/infrastructure/dictionary:
 * cached reference tables whose rows are either global (no owner) or owned
 * by one user.
 */
module CategoryDicts {
  import opened Wrappers
  import opened Uuids
  import opened Times
  import opened Errors
  import opened PgErrors
  import opened Text
  import opened Categories
  import opened Dictionary

  /** The names `NotFound` carries for the two tables (the row types' names). */
  const CategoriesModel := "Categories"
  const SubcategoriesModel := "Subcategories"

  /** A row of the categories table; `userId` is NULL for a global category. */
  datatype CategoryRow = CategoryRow(
    id: int, userId: Option<UuidText>, position: int,
    nameEN: string, nameRU: string, nameUZ: string, emoji: string,
    createdAt: Time, updatedAt: Option<Time>)

  /** A row of the subcategories table. */
  datatype SubcategoryRow = SubcategoryRow(
    id: int, categoryId: int, userId: Option<UuidText>, position: int,
    nameEN: string, nameRU: string, nameUZ: string, emoji: string,
    createdAt: Time, updatedAt: Option<Time>)

  function CategoryKey(c: CategoryRow): int { c.id }

  /** `Code`: the id in decimal. */
  function CategoryCode(c: CategoryRow): (r: string)
    ensures r != ""
  {
    IntToString(c.id)
  }

  function SubcategoryKey(s: SubcategoryRow): int { s.id }

  /**
   * `Code` of the subcategory model: a method of its own in subcategories.go,
   * rendering the id in decimal exactly as `CategoryCode` does for categories.
   */
  function SubcategoryCode(s: SubcategoryRow): (r: string)
    ensures r != ""
  {
    IntToString(s.id)
  }

  /** Distinct ids have distinct codes, so the code index never merges two rows. */
  lemma CodeInjective(a: int, b: int)
    requires IntToString(a) == IntToString(b)
    ensures a == b
  {
    if a >= 0 && b >= 0 {
      NatToStringValue(a);
      NatToStringValue(b);
    } else if a < 0 && b < 0 {
      var sa, sb := NatToString(-a), NatToString(-b);
      assert IntToString(a)[1..] == sa && IntToString(b)[1..] == sb;
      NatToStringValue(-a);
      NatToStringValue(-b);
    }
  }

  /** `pointer.TimeValue`: NULL reads back as the zero time. */
  function TimeValue(t: Option<Time>): Time {
    t.GetOr(ZeroTime)
  }

  /** The owner a row's text becomes: none and unparseable text both give Nil. */
  function OwnerOf(userId: Option<UuidText>): (r: Uuid)
    ensures userId.None? ==> r == Nil
    ensures userId.Some? ==> r == ParseOrNil(userId.value)
  {
    if userId.Some? then ParseOrNil(userId.value) else Nil
  }

  /** `ToEntity` for a category row. */
  function CategoryToEntity(c: CategoryRow): Category {
    Category(c.id, "", OwnerOf(c.userId), c.position, "", c.nameEN, c.nameRU, c.nameUZ, c.emoji,
             c.createdAt, TimeValue(c.updatedAt))
  }

  /** `ToModel` for a category: the owner and the update time are always written. */
  function CategoryToModel(c: Category): (r: CategoryRow)
    ensures r.userId.Some? && r.updatedAt.Some?
  {
    CategoryRow(c.id, Some(ToText(c.userId)), c.position, c.nameEN, c.nameRU, c.nameUZ, c.emoji,
                c.createdAt, Some(c.updatedAt))
  }

  /**
   * A category read back after writing keeps every field the table has;
   * only the entity's slug and plain name, which no column holds, are lost.
   */
  lemma CategoryRoundTrip(c: Category)
    ensures CategoryToEntity(CategoryToModel(c)) == c.(slug := "", name := "")
  {
  }

  /** A row whose owner is NULL reads back as owned by Nil, and is then written with the Nil owner's text. */
  lemma GlobalCategoryGainsOwner(r: CategoryRow)
    requires r.userId.None?
    ensures CategoryToModel(CategoryToEntity(r)).userId == Some(ToText(Nil))
  {
  }

  function SubcategoryToEntity(s: SubcategoryRow): Subcategory {
    Subcategory(s.id, s.categoryId, OwnerOf(s.userId), s.position, s.nameEN, s.nameRU, s.nameUZ, s.emoji,
                s.createdAt, TimeValue(s.updatedAt))
  }

  function SubcategoryToModel(s: Subcategory): (r: SubcategoryRow)
    ensures r.userId.Some? && r.updatedAt.Some?
  {
    SubcategoryRow(s.id, s.categoryId, Some(ToText(s.userId)), s.position, s.nameEN, s.nameRU, s.nameUZ, s.emoji,
                   s.createdAt, Some(s.updatedAt))
  }

  lemma SubcategoryRoundTrip(s: Subcategory)
    ensures SubcategoryToEntity(SubcategoryToModel(s)) == s
  {
  }

  /** The owner filter: a global row, or one whose owner text is the caller's. */
  predicate VisibleTo(owner: Option<UuidText>, userId: Uuid) {
    owner.None? || owner.value == ToText(userId)
  }

  /** The categories `FindAll` returns: the visible rows, in cache order. */
  function VisibleCategories(items: seq<CategoryRow>, userId: Uuid): seq<Category> {
    if items == [] then []
    else
      var prev := VisibleCategories(items[..|items| - 1], userId);
      var last := items[|items| - 1];
      if VisibleTo(last.userId, userId) then prev + [CategoryToEntity(last)] else prev
  }

  /**
   * `FindAll` keeps exactly the visible rows: each result is the entity of
   * a visible row, and each visible row appears.
   */
  lemma {:induction false} VisibleCategoriesExact(items: seq<CategoryRow>, userId: Uuid)
    ensures forall c :: c in VisibleCategories(items, userId) ==>
              exists i :: 0 <= i < |items| && VisibleTo(items[i].userId, userId) && c == CategoryToEntity(items[i])
    ensures forall i :: 0 <= i < |items| && VisibleTo(items[i].userId, userId) ==>
              CategoryToEntity(items[i]) in VisibleCategories(items, userId)
    ensures forall c :: c in VisibleCategories(items, userId) ==> c.userId == Nil || c.userId == userId
  {
    if items != [] {
      var n := |items| - 1;
      VisibleCategoriesExact(items[..n], userId);
      assert forall i :: 0 <= i < n ==> items[..n][i] == items[i];
    }
  }

  /** The subcategories `FindByCategoryID` returns: the visible rows of one category, in cache order. */
  function VisibleSubcategories(items: seq<SubcategoryRow>, userId: Uuid, categoryId: Option<int>): seq<Subcategory> {
    if items == [] then []
    else
      var prev := VisibleSubcategories(items[..|items| - 1], userId, categoryId);
      var last := items[|items| - 1];
      if (categoryId.None? || last.categoryId == categoryId.value) && VisibleTo(last.userId, userId)
      then prev + [SubcategoryToEntity(last)] else prev
  }

  /** Restricting to a category only drops rows: it is a sub-list of `FindAll`'s result. */
  lemma {:induction false} ByCategoryIsSubsequence(items: seq<SubcategoryRow>, userId: Uuid, categoryId: int)
    ensures forall s :: s in VisibleSubcategories(items, userId, Some(categoryId)) ==>
              s in VisibleSubcategories(items, userId, None) && s.categoryId == categoryId
    ensures |VisibleSubcategories(items, userId, Some(categoryId))| <= |VisibleSubcategories(items, userId, None)|
  {
    if items != [] {
      ByCategoryIsSubsequence(items[..|items| - 1], userId, categoryId);
    }
  }

  /** The rows a scoped `DELETE ... WHERE user_id = caller AND id = id` leaves. */
  function WithoutOwned<R>(rows: seq<R>, owner: R -> Option<UuidText>, id: R -> int, userId: Uuid, k: int): (r: seq<R>)
    ensures forall x :: x in rows && owner(x).None? ==> x in r
    ensures forall x :: x in r ==> x in rows && !(owner(x) == Some(ToText(userId)) && id(x) == k)
  {
    if rows == [] then []
    else
      var prev := WithoutOwned(rows[..|rows| - 1], owner, id, userId, k);
      var last := rows[|rows| - 1];
      assert forall x :: x in rows ==> x in rows[..|rows| - 1] || x == last;
      if owner(last) == Some(ToText(userId)) && id(last) == k then prev else prev + [last]
  }

  class CategoriesDict {
    const cache: BaseDictionary<int, CategoryRow>
    /** The categories table, in position order. */
    var table: seq<CategoryRow>

    ghost predicate Valid()
      reads this
    {
      (forall r :: cache.key(r) == r.id) && (forall r :: cache.code(r) == IntToString(r.id))
      && cache.modelName == CategoriesModel
    }

    /** `NewCategoriesDict`: a cache over the table ordered by position, loaded once. */
    constructor (table: seq<CategoryRow>, scanFault: Option<Error>, now: int)
      ensures Valid() && this.table == table && fresh(cache)
      ensures scanFault.None? ==> cache.items == table
    {
      this.table := table;
      cache := new BaseDictionary(CategoryKey, CategoryCode, CategoriesModel, [], Source(table, scanFault, None), now);
    }

    /** `FindAll`: the categories visible to the caller, in cache order. */
    method FindAll(userId: Uuid, scanFault: Option<Error>, now: int) returns (r: seq<Category>)
      requires Valid()
      modifies cache
      ensures r == VisibleCategories(cache.items, userId)
    {
      var items := cache.Values(Source(table, scanFault, None), now);
      r := [];
      var i := 0;
      while i < |items|
        invariant 0 <= i <= |items|
        invariant r == VisibleCategories(items[..i], userId)
      {
        assert items[..i + 1][..i] == items[..i];
        if VisibleTo(items[i].userId, userId) {
          r := r + [CategoryToEntity(items[i])];
        }
        i := i + 1;
      }
      assert items[..i] == items;
    }

    /** `FindByID`: the cached category, or NotFound. */
    method FindByID(id: int, scanFault: Option<Error>, now: int) returns (r: Result<Category>)
      requires Valid()
      modifies cache
      ensures id in cache.itemsByKey <==> r.Ok?
      ensures r.Ok? ==> r.value == CategoryToEntity(cache.itemsByKey[id])
      ensures r.Err? ==> r.error == NotFound(CategoriesModel)
    {
      var item := cache.GetByKey(Source(table, scanFault, None), now, id);
      if item.Err? {
        return Err(item.error);
      }
      return Ok(CategoryToEntity(item.value));
    }

    /**
     * `Delete`: removes the caller's own row with that id, never a global
     * one, then reloads the cache, ignoring a reload failure.
     */
    method Delete(userId: Uuid, id: int, fault: Option<Error>, reloadFault: Option<Error>, now: int)
      returns (err: Option<Error>)
      requires Valid()
      modifies this, cache
      ensures Valid()
      ensures fault.Some? ==> err == Some(RepoError(fault.value, CategoriesModel)) && table == old(table)
      ensures fault.None? ==> err.None? && table == WithoutOwned(old(table), (r: CategoryRow) => r.userId, CategoryKey, userId, id)
      ensures fault.None? && reloadFault.None? ==> cache.items == table
    {
      if fault.Some? {
        return Some(RepoError(fault.value, CategoriesModel));
      }
      table := WithoutOwned(table, (r: CategoryRow) => r.userId, CategoryKey, userId, id);
      var _ := cache.Load(Source(table, reloadFault, None), now);
      return None;
    }
  }

  class SubcategoriesDict {
    const cache: BaseDictionary<int, SubcategoryRow>
    var table: seq<SubcategoryRow>

    ghost predicate Valid()
      reads this
    {
      (forall r :: cache.key(r) == r.id) && cache.modelName == SubcategoriesModel
    }

    constructor (table: seq<SubcategoryRow>, scanFault: Option<Error>, now: int)
      ensures Valid() && this.table == table && fresh(cache)
      ensures scanFault.None? ==> cache.items == table
    {
      this.table := table;
      cache := new BaseDictionary(SubcategoryKey, SubcategoryCode, SubcategoriesModel, [], Source(table, scanFault, None), now);
    }

    /** `FindAll` (no category) and `FindByCategoryID` (a category): the visible rows, in cache order. */
    method FindVisible(userId: Uuid, categoryId: Option<int>, scanFault: Option<Error>, now: int)
      returns (r: seq<Subcategory>)
      requires Valid()
      modifies cache
      ensures r == VisibleSubcategories(cache.items, userId, categoryId)
    {
      var items := cache.Values(Source(table, scanFault, None), now);
      r := [];
      var i := 0;
      while i < |items|
        invariant 0 <= i <= |items|
        invariant r == VisibleSubcategories(items[..i], userId, categoryId)
      {
        assert items[..i + 1][..i] == items[..i];
        if categoryId.Some? && items[i].categoryId != categoryId.value {
        } else if VisibleTo(items[i].userId, userId) {
          r := r + [SubcategoryToEntity(items[i])];
        }
        i := i + 1;
      }
      assert items[..i] == items;
    }

    method FindByID(id: int, scanFault: Option<Error>, now: int) returns (r: Result<Subcategory>)
      requires Valid()
      modifies cache
      ensures id in cache.itemsByKey <==> r.Ok?
      ensures r.Ok? ==> r.value == SubcategoryToEntity(cache.itemsByKey[id])
      ensures r.Err? ==> r.error == NotFound(SubcategoriesModel)
    {
      var item := cache.GetByKey(Source(table, scanFault, None), now, id);
      if item.Err? {
        return Err(item.error);
      }
      return Ok(SubcategoryToEntity(item.value));
    }

    method Delete(userId: Uuid, id: int, fault: Option<Error>, reloadFault: Option<Error>, now: int)
      returns (err: Option<Error>)
      requires Valid()
      modifies this, cache
      ensures Valid()
      ensures fault.Some? ==> err == Some(RepoError(fault.value, SubcategoriesModel)) && table == old(table)
      ensures fault.None? ==> err.None? && table == WithoutOwned(old(table), (r: SubcategoryRow) => r.userId, SubcategoryKey, userId, id)
      ensures fault.None? && reloadFault.None? ==> cache.items == table
    {
      if fault.Some? {
        return Some(RepoError(fault.value, SubcategoriesModel));
      }
      table := WithoutOwned(table, (r: SubcategoryRow) => r.userId, SubcategoryKey, userId, id);
      var _ := cache.Load(Source(table, reloadFault, None), now);
      return None;
    }
  }
}
