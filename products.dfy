/**
 * The products page (`src/pages/Products.jsx`): the optimistic delete with its rollback,
 * the category filter options, the window of page numbers and the previous/next guards,
 * the page resets when a filter changes, and the per-image loading and error sets.
 */
module ProductsPage {
  import opened Wrappers
  import opened Seqs
  import opened Cache

  // ---------------------------------------------------------------------------------------
  // Optimistic delete

  function KeepsId(id: Json): Record -> bool {
    (r: Record) => !HasId(r, id)
  }

  function MatchesId(id: Json): Record -> bool {
    (r: Record) => HasId(r, id)
  }

  /** `s.filter(p => p._id !== id)`. */
  function RemoveById(s: seq<Record>, id: Json): seq<Record> {
    Filter(s, KeepsId(id))
  }

  /** `old ? old.filter(...) : old`: an absent array stays absent. */
  function RemoveInList(list: Option<seq<Record>>, id: Json): Option<seq<Record>> {
    if list.Some? then Some(RemoveById(list.value, id)) else None
  }

  /** `onMutate` of a delete, as a function of the cache contents. */
  function DeleteMutate(m: map<Key, Entry>, id: Json): map<Key, Entry> {
    WriteList(m, RemoveInList(ListOf(Snapshot(m, ProductsKey)), id))
  }

  /**
   * Deleting removes exactly the records with that id: a record stays iff its id differs,
   * and the records removed are as many as carried the id.
   */
  lemma RemoveByIdSpec(s: seq<Record>, id: Json)
    ensures forall r :: r in RemoveById(s, id) <==> r in s && !HasId(r, id)
    ensures |RemoveById(s, id)| == |s| - Count(s, MatchesId(id))
  {
    forall r ensures r in RemoveById(s, id) <==> r in s && !HasId(r, id) {
      FilterMember(s, KeepsId(id), r);
    }
    FilterUnion(s, KeepsId(id), MatchesId(id), (r: Record) => true, (r: Record) => 0.0);
    FilterKeepsAll(s, (r: Record) => true);
  }

  /** When no record carries the id, the list is unchanged, so deleting twice is deleting once. */
  lemma RemoveByIdIdempotent(s: seq<Record>, id: Json)
    ensures RemoveById(RemoveById(s, id), id) == RemoveById(s, id)
    ensures (forall i :: 0 <= i < |s| ==> !HasId(s[i], id)) ==> RemoveById(s, id) == s
  {
    FilterKeepsAll(RemoveById(s, id), KeepsId(id));
    if forall i :: 0 <= i < |s| ==> !HasId(s[i], id) {
      FilterKeepsAll(s, KeepsId(id));
    }
  }

  /** A failed delete restores the list when there was one; an absent list was never written. */
  lemma DeleteRollback(m: map<Key, Entry>, id: Json)
    ensures ProductsKey in m ==> Restore(DeleteMutate(m, id), ProductsKey, Snapshot(m, ProductsKey)) == m
    ensures ProductsKey !in m ==> DeleteMutate(m, id) == m
  {
    if ProductsKey in m {
      RestoreUndoes(m, DeleteMutate(m, id), ProductsKey);
    }
  }

  /** The delete mutation's `onMutate`: returns the snapshot. */
  method DeleteOnMutate(cache: QueryCache, id: Json) returns (previousProducts: Option<Entry>)
    requires cache.Valid()
    modifies cache
    ensures cache.Valid()
    ensures previousProducts == old(cache.Get(ProductsKey))
    ensures cache.entries == DeleteMutate(old(cache.entries), id)
  {
    previousProducts := cache.Get(ProductsKey);
    cache.SetList(RemoveInList(ListOf(previousProducts), id));
  }

  /** The delete mutation's `onError`. */
  method DeleteOnError(cache: QueryCache, previousProducts: Option<Entry>)
    requires cache.Valid() && (previousProducts.Some? ==> previousProducts.value.ListEntry?)
    modifies cache
    ensures cache.Valid()
    ensures cache.entries == Restore(old(cache.entries), ProductsKey, previousProducts)
  {
    cache.RestoreFrom(ProductsKey, previousProducts);
  }

  // ---------------------------------------------------------------------------------------
  // Category options

  /** A category as the backend lists it. */
  datatype CategoryDoc = CategoryDoc(dbId: Option<string>, altId: Option<string>, name: Option<string>)

  /** One option of the category filter: `{ id: cat._id || cat.id, name: cat.name }`. */
  datatype CategoryOption = CategoryOption(id: Option<string>, name: Option<string>)

  const AllCategories := CategoryOption(Some("all"), Some("All Categories"))

  function OptionOf(c: CategoryDoc): CategoryOption {
    CategoryOption(if c.dbId.Some? && c.dbId.value != "" then c.dbId else c.altId, c.name)
  }

  /** `getUniqueCategories(categories)`; `None` is a missing list. */
  function UniqueCategories(categories: Option<seq<CategoryDoc>>): (r: seq<CategoryOption>)
    ensures r != [] && r[0] == AllCategories
  {
    if categories.None? || |categories.value| == 0 then [AllCategories]
    else [AllCategories] + seq(|categories.value|, k requires 0 <= k < |categories.value| => OptionOf(categories.value[k]))
  }

  /** "All Categories" comes first, then one option per category in input order. */
  lemma UniqueCategoriesSpec(categories: seq<CategoryDoc>)
    ensures |UniqueCategories(Some(categories))| == |categories| + 1
    ensures forall k :: 0 <= k < |categories| ==> UniqueCategories(Some(categories))[k + 1] == OptionOf(categories[k])
    ensures UniqueCategories(None) == UniqueCategories(Some([]))
  {
  }

  // ---------------------------------------------------------------------------------------
  // Pagination

  /** `liveProducts?.totalPages || 1` and `liveProducts?.page || 1`. */
  function OrOne(x: Option<int>): (r: int)
    ensures r != 0
  {
    if x.Some? && x.value != 0 then x.value else 1
  }

  function Min(a: int, b: int): int { if a < b then a else b }

  /** The `i`-th page number shown. */
  function PageNumber(i: int, currentPage: int, totalPages: int): int {
    if totalPages <= 5 then i + 1
    else if currentPage <= 3 then i + 1
    else if currentPage >= totalPages - 2 then totalPages - 4 + i
    else currentPage - 2 + i
  }

  /** `Array.from({ length: Math.min(5, totalPages) }, (_, i) => pageNum)`. */
  function PageWindow(currentPage: int, totalPages: int): (r: seq<int>)
    ensures |r| == if totalPages <= 0 then 0 else Min(5, totalPages)
  {
    var n := if totalPages <= 0 then 0 else Min(5, totalPages);
    seq(n, i requires 0 <= i < n => PageNumber(i, currentPage, totalPages))
  }

  /**
   * The window holds `min(5, totalPages)` consecutive page numbers, all real pages, and it
   * shows the current page whenever that is a real page.
   */
  lemma PageWindowSpec(currentPage: int, totalPages: int)
    requires totalPages >= 1
    ensures |PageWindow(currentPage, totalPages)| == Min(5, totalPages)
    ensures forall i :: 0 < i < |PageWindow(currentPage, totalPages)| ==>
      PageWindow(currentPage, totalPages)[i] == PageWindow(currentPage, totalPages)[i - 1] + 1
    ensures forall i :: 0 <= i < |PageWindow(currentPage, totalPages)| ==> 1 <= PageWindow(currentPage, totalPages)[i] <= totalPages
    ensures 1 <= currentPage <= totalPages ==> currentPage in PageWindow(currentPage, totalPages)
  {
    var w := PageWindow(currentPage, totalPages);
    if 1 <= currentPage <= totalPages {
      var i := if totalPages <= 5 || currentPage <= 3 then currentPage - 1
        else if currentPage >= totalPages - 2 then currentPage - totalPages + 4
        else 2;
      assert w[i] == currentPage;
    }
  }

  /** Previous is disabled on page 1. */
  predicate PreviousDisabled(currentPage: int) { currentPage == 1 }

  /** Next is disabled on the last page. */
  predicate NextDisabled(currentPage: int, totalPages: int) { currentPage == totalPages }

  /** From a real page, an enabled Previous or Next button leads to a real page. */
  lemma PreviousNextStayInRange(currentPage: int, totalPages: int)
    requires 1 <= currentPage <= totalPages
    ensures !PreviousDisabled(currentPage) ==> 1 <= currentPage - 1
    ensures !NextDisabled(currentPage, totalPages) ==> currentPage + 1 <= totalPages
    ensures PreviousDisabled(currentPage) <==> currentPage - 1 < 1
    ensures NextDisabled(currentPage, totalPages) <==> currentPage + 1 > totalPages
  {
  }

  /** The page's query state: page, page size, search text, category and sort order. */
  class PageState {
    var page: int
    var limit: int
    var searchQuery: string
    var category: string
    var sortBy: string

    /** The initial state: page 1 of 10, no search, all categories, newest first. */
    constructor ()
      ensures page == 1 && limit == 10 && searchQuery == "" && category == "all" && sortBy == "-createdAt"
    {
      page, limit, searchQuery, category, sortBy := 1, 10, "", "all", "-createdAt";
    }

    /** `handlePageChange(newPage)`. */
    method ChangePage(newPage: int)
      modifies this
      ensures page == newPage
      ensures limit == old(limit) && searchQuery == old(searchQuery) && category == old(category) && sortBy == old(sortBy)
    {
      page := newPage;
    }

    /** `handleLimitChange(newLimit)`: back to page 1. */
    method ChangeLimit(newLimit: int)
      modifies this
      ensures limit == newLimit && page == 1
      ensures searchQuery == old(searchQuery) && category == old(category) && sortBy == old(sortBy)
    {
      limit := newLimit;
      page := 1;
    }

    /** `handleSearchChange(e)`: back to page 1. */
    method ChangeSearch(query: string)
      modifies this
      ensures searchQuery == query && page == 1
      ensures limit == old(limit) && category == old(category) && sortBy == old(sortBy)
    {
      searchQuery := query;
      page := 1;
    }

    /** `handleCategoryChange(e)`: back to page 1. */
    method ChangeCategory(value: string)
      modifies this
      ensures category == value && page == 1
      ensures limit == old(limit) && searchQuery == old(searchQuery) && sortBy == old(sortBy)
    {
      category := value;
      page := 1;
    }

    /** `handleSortChange(e)`: back to page 1. */
    method ChangeSort(value: string)
      modifies this
      ensures sortBy == value && page == 1
      ensures limit == old(limit) && searchQuery == old(searchQuery) && category == old(category)
    {
      sortBy := value;
      page := 1;
    }
  }

  // ---------------------------------------------------------------------------------------
  // Image loading state

  /** The ids whose cover image is loading and those whose cover image failed. */
  class ImageSets {
    var loading: set<string>
    var errors: set<string>

    constructor ()
      ensures loading == {} && errors == {}
    {
      loading, errors := {}, {};
    }

    /** The cover is drawn when the product has one and it has not failed. */
    predicate ShowsImage(hasCover: bool, id: string)
      reads this
    {
      hasCover && id !in errors
    }

    /** `handleImageLoadStart(id)`: loading, and no longer failed. */
    method LoadStart(id: string)
      modifies this
      ensures loading == old(loading) + {id} && errors == old(errors) - {id}
    {
      loading := loading + {id};
      errors := errors - {id};
    }

    /** `handleImageLoadSuccess(id)`: neither loading nor failed. */
    method LoadSuccess(id: string)
      modifies this
      ensures loading == old(loading) - {id} && errors == old(errors) - {id}
    {
      loading := loading - {id};
      errors := errors - {id};
    }

    /** `handleImageError(id)`: no longer loading; the failure is recorded by a later event. */
    method LoadError(id: string)
      modifies this
      ensures loading == old(loading) - {id} && errors == old(errors)
    {
      loading := loading - {id};
    }

    /** The delayed part of `handleImageError(id)`, two seconds later: the image has failed. */
    method ErrorDelayElapsed(id: string)
      modifies this
      ensures errors == old(errors) + {id} && loading == old(loading)
    {
      errors := errors + {id};
    }

    /** `clearImageError(id)`. */
    method ClearError(id: string)
      modifies this
      ensures errors == old(errors) - {id} && loading == old(loading)
    {
      errors := errors - {id};
    }
  }
}
