/**
 * The admin product console: a search kind and input typed live, a search
 * that commits them, and pagination that pages through the committed
 * search. Only the "all" kind is served; every other kind is an error that
 * leaves the shown results as they were. Pages hold five products.
 */
module AdminProducts {
  import opened Types

  /** The search kinds the selector offers (`all`, `name`, `stocks`,
      `category`). */
  datatype SearchKind = All | Name | Stocks | Category

  /** A committed search: the kind and the input it was issued with. */
  datatype Search = Search(kind: SearchKind, input: string)

  /** The backend's page of results: the total match count and this page. */
  datatype PageResponse<P> = PageResponse(count: nat, data: seq<P>)

  const PageSize: nat := 5
  const NoSearchFound := "No Search Found."
  const SearchPageError := "Somethings wrong with the search page."
  const CategoryLoadError := "Cannot Load all categories"

  /** `true` when the search must be served by the page-listing endpoint. */
  predicate ListsAll(search: Option<Search>)
  {
    search.Some? && search.value.kind == All
  }

  class AdminProductPage<P> {
    var categories: seq<string>
    /** `None` is the `undefined` picked from an empty category list. */
    var selectedCategory: Option<string>
    var isLoading: bool
    var products: seq<P>
    var kind: SearchKind
    var searchInput: string
    var currentPage: int
    var totalPage: nat
    var currentSearch: Option<Search>
    var errMsg: string

    constructor ()
      ensures categories == [] && selectedCategory == Some("") && !isLoading
      ensures products == [] && kind == Name && searchInput == ""
      ensures currentPage == 0 && totalPage == 0 && currentSearch == None && errMsg == ""
    {
      categories := [];
      selectedCategory := Some("");
      isLoading := false;
      products := [];
      kind := Name;
      searchInput := "";
      currentPage := 0;
      totalPage := 0;
      currentSearch := None;
      errMsg := "";
    }

    /** The pager is rendered only when there is at least one page. */
    predicate ShowsPagination(): (r: bool)
      reads this
      ensures r <==> totalPage >= 1
      ensures !r ==> totalPage == 0
    {
      totalPage != 0
    }

    /** The mount effect loading the category list. */
    method LoadCategories(res: Fetch<seq<string>>)
      modifies this
      ensures !isLoading
      ensures res.Ok? ==> categories == res.data && errMsg == old(errMsg)
      ensures res.Ok? && |res.data| > 0 ==> selectedCategory == Some(res.data[0])
      ensures res.Ok? && |res.data| == 0 ==> selectedCategory == None
      ensures res.Failed? ==> errMsg == CategoryLoadError && categories == old(categories) && selectedCategory == old(selectedCategory)
      ensures products == old(products) && kind == old(kind) && searchInput == old(searchInput)
      ensures currentPage == old(currentPage) && totalPage == old(totalPage) && currentSearch == old(currentSearch)
    {
      isLoading := true;
      match res
      case Ok(data) =>
        categories := data;
        selectedCategory := if |data| > 0 then Some(data[0]) else None;
        isLoading := false;
      case Failed(_) =>
        errMsg := CategoryLoadError;
        isLoading := false;
    }

    /** The kind selector: changes only the live kind. */
    method SetKind(k: SearchKind)
      modifies this`kind
      ensures kind == k
    {
      kind := k;
    }

    /** The search box: changes only the live input. */
    method SetSearchInput(s: string)
      modifies this`searchInput
      ensures searchInput == s
    {
      searchInput := s;
    }

    method SelectCategory(c: string)
      modifies this`selectedCategory
      ensures selectedCategory == Some(c)
    {
      selectedCategory := Some(c);
    }

    /** `handleSearch`: dispatch on the live kind. For "all", request page 1;
        on success show it, derive the page count from the match count and
        commit the search. Any other kind fails without a request. The
        request made, if any, is the page number returned. */
    method HandleSearch(res: Fetch<PageResponse<P>>) returns (requestedPage: Option<nat>)
      modifies this
      ensures requestedPage == (if old(kind) == All then Some(1) else None)
      ensures !isLoading
      ensures kind == old(kind) && searchInput == old(searchInput)
      ensures categories == old(categories) && selectedCategory == old(selectedCategory)
      ensures old(kind) == All && res.Ok? ==>
        && products == res.data.data
        && totalPage == CeilDiv(res.data.count, PageSize)
        && currentPage == 1
        && currentSearch == Some(Search(All, old(searchInput)))
        && errMsg == old(errMsg)
        && (ShowsPagination() <==> res.data.count > 0)
      ensures !(old(kind) == All && res.Ok?) ==>
        && products == old(products) && totalPage == old(totalPage)
        && currentPage == old(currentPage) && currentSearch == old(currentSearch)
        && errMsg == (if old(kind) == All then res.message else NoSearchFound)
    {
      isLoading := true;
      if kind == All {
        requestedPage := Some(1);
        match res
        case Ok(data) =>
          totalPage := CeilDiv(data.count, PageSize);
          products := data.data;
          currentPage := 1;
          currentSearch := Some(Search(kind, searchInput));
          isLoading := false;
        case Failed(message) =>
          errMsg := message;
          isLoading := false;
      } else {
        requestedPage := None;
        errMsg := NoSearchFound;
        isLoading := false;
      }
    }

    /** `handleChange`: dispatch on the committed search, never on the live
        kind and input. Under an "all" search, request the new page and show
        it on success; otherwise fail without a request. The page count and
        the committed search never change here. */
    method HandleChange(newPage: int, res: Fetch<PageResponse<P>>) returns (requestedPage: Option<int>)
      modifies this
      ensures requestedPage == (if ListsAll(old(currentSearch)) then Some(newPage) else None)
      ensures !isLoading
      ensures totalPage == old(totalPage) && currentSearch == old(currentSearch)
      ensures kind == old(kind) && searchInput == old(searchInput)
      ensures categories == old(categories) && selectedCategory == old(selectedCategory)
      ensures ListsAll(old(currentSearch)) && res.Ok? ==>
        products == res.data.data && currentPage == newPage && errMsg == old(errMsg)
      ensures !(ListsAll(old(currentSearch)) && res.Ok?) ==>
        && products == old(products) && currentPage == old(currentPage)
        && errMsg == (if ListsAll(old(currentSearch)) then res.message else SearchPageError)
    {
      isLoading := true;
      if ListsAll(currentSearch) {
        requestedPage := Some(newPage);
        match res
        case Ok(data) =>
          products := data.data;
          currentPage := newPage;
          isLoading := false;
        case Failed(message) =>
          errMsg := message;
          isLoading := false;
      } else {
        requestedPage := None;
        errMsg := SearchPageError;
        isLoading := false;
      }
    }
  }

  /** Editing the live kind or input after a search does not change what the
      next page change requests. */
  method PageChangeIgnoresLiveInput<P>(page: AdminProductPage<P>, k: SearchKind, s: string, newPage: int, res: Fetch<PageResponse<P>>)
    returns (requestedPage: Option<int>)
    modifies page
    ensures requestedPage == (if ListsAll(old(page.currentSearch)) then Some(newPage) else None)
    ensures page.currentSearch == old(page.currentSearch) && page.kind == k && page.searchInput == s
  {
    page.SetKind(k);
    page.SetSearchInput(s);
    requestedPage := page.HandleChange(newPage, res);
  }
}
