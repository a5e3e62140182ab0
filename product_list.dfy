/**
 * The list view of src/features/products/ProductList.tsx: its state, its
 * handlers, the two halves of `fetchProducts` around the awaited request,
 * the Pagination wiring, and which panel it renders.
 */
module ProductListView {
  import opened Wrappers
  import opened Catalog
  import opened ProductSort
  import opened QueryParams
  import Pages
  import Pagination

  /** The message recorded for a thrown value that is not an `Error`. */
  const GenericError: string := "An error occurred"

  /** `err instanceof Error ? err.message : 'An error occurred'`. */
  function ErrorText(t: Thrown): string {
    match t
    case ErrorInstance(e) => e.message
    case OtherThrown(_) => GenericError
  }

  /** What one call of `fetchProducts` sent, and the sort settings its closure holds. */
  datatype Request = Request(params: Params, sort: SortKey)

  /** The panels of the content area. */
  datatype Panel = LoadingPanel | ErrorPanel | EmptyPanel | TablePanel

  /** JavaScript truthiness of the `error` state: `null` and `''` are falsy. */
  predicate Truthy(error: Option<string>) {
    error.Some? && error.value != ""
  }

  /** The guard in front of each panel in the JSX, each written on its own. */
  predicate Shows(p: Panel, loading: bool, error: Option<string>, count: nat) {
    match p
    case LoadingPanel => loading
    case ErrorPanel => !loading && Truthy(error)
    case EmptyPanel => !loading && !Truthy(error) && count == 0
    case TablePanel => !loading && !Truthy(error) && count > 0
  }

  /** The guard of the pagination footer. */
  predicate ShowsFooter(loading: bool, error: Option<string>, count: nat) {
    !loading && !Truthy(error) && count > 0
  }

  /** Loading first, then an error, then an empty page, else the table. */
  function Display(loading: bool, error: Option<string>, count: nat): (r: Panel)
    ensures Shows(r, loading, error, count)
  {
    if loading then LoadingPanel
    else if Truthy(error) then ErrorPanel
    else if count == 0 then EmptyPanel
    else TablePanel
  }

  /** Exactly one panel's guard holds, it is the one `Display` picks, and the footer shows exactly with the table. */
  lemma ExactlyOnePanel(loading: bool, error: Option<string>, count: nat)
    ensures forall p :: Shows(p, loading, error, count) <==> p == Display(loading, error, count)
    ensures ShowsFooter(loading, error, count) <==> Display(loading, error, count) == TablePanel
  {
  }

  /** Flips `asc` and `desc`. */
  function Toggled(o: SortOrder): (r: SortOrder)
    ensures r != o
  {
    if o == Asc then Desc else Asc
  }

  lemma ToggleTwice(o: SortOrder)
    ensures Toggled(Toggled(o)) == o
  {
  }

  class ProductList {
    var products: seq<Product>
    var loading: bool
    var error: Option<string>
    var searchQuery: string
    var selectedCategory: string
    var sortBy: string
    var sortOrder: SortOrder
    var currentPage: int
    var totalItems: int

    /**
     * A request in flight has cleared the error: every handler keeps it.
     * The panel guards of this view test `!loading` themselves, so the
     * panels do not depend on it (`ExactlyOnePanel` holds in every state);
     * it states that the spinner never coexists with a stale error.
     */
    ghost predicate Valid()
      reads this
    {
      loading ==> error == None
    }

    /** The initial values of the `useState` calls. */
    constructor ()
      ensures Valid()
      ensures products == [] && loading && error == None
      ensures searchQuery == "" && selectedCategory == "" && sortBy == "name" && sortOrder == Asc
      ensures currentPage == 1 && totalItems == 0
    {
      products, loading, error := [], true, None;
      searchQuery, selectedCategory, sortBy, sortOrder := "", "", "name", Asc;
      currentPage, totalItems := 1, 0;
    }

    /** `Math.ceil(totalItems / limit)`. */
    function TotalPages(): (r: int)
      reads this
      ensures (r - 1) * Pages.Limit < totalItems <= r * Pages.Limit
    {
      Pages.CeilDiv(totalItems, Pages.Limit)
    }

    /** The panel the content area renders. */
    function CurrentPanel(): Panel
      reads this
    {
      Display(loading, error, |products|)
    }

    method HandleSearchChange(query: string)
      modifies this
      requires Valid()
      ensures Valid()
      ensures searchQuery == query && currentPage == 1
      ensures selectedCategory == old(selectedCategory) && sortBy == old(sortBy) && sortOrder == old(sortOrder)
      ensures products == old(products) && loading == old(loading) && error == old(error)
      ensures totalItems == old(totalItems)
    {
      searchQuery := query;
      currentPage := 1;
    }

    method HandleCategoryChange(category: string)
      modifies this
      requires Valid()
      ensures Valid()
      ensures selectedCategory == category && currentPage == 1
      ensures searchQuery == old(searchQuery) && sortBy == old(sortBy) && sortOrder == old(sortOrder)
      ensures products == old(products) && loading == old(loading) && error == old(error)
      ensures totalItems == old(totalItems)
    {
      selectedCategory := category;
      currentPage := 1;
    }

    method HandleSortChange(sort: string)
      modifies this
      requires Valid()
      ensures Valid()
      ensures sortBy == sort
      ensures currentPage == old(currentPage)
      ensures searchQuery == old(searchQuery) && selectedCategory == old(selectedCategory) && sortOrder == old(sortOrder)
      ensures products == old(products) && loading == old(loading) && error == old(error)
      ensures totalItems == old(totalItems)
    {
      sortBy := sort;
    }

    method HandleSortOrderToggle()
      modifies this
      requires Valid()
      ensures Valid()
      ensures sortOrder == Toggled(old(sortOrder))
      ensures currentPage == old(currentPage)
      ensures searchQuery == old(searchQuery) && selectedCategory == old(selectedCategory) && sortBy == old(sortBy)
      ensures products == old(products) && loading == old(loading) && error == old(error)
      ensures totalItems == old(totalItems)
    {
      sortOrder := Toggled(sortOrder);
    }

    method HandlePageChange(page: int)
      modifies this
      requires Valid()
      ensures Valid()
      ensures currentPage == page
      ensures searchQuery == old(searchQuery) && selectedCategory == old(selectedCategory)
      ensures sortBy == old(sortBy) && sortOrder == old(sortOrder)
      ensures products == old(products) && loading == old(loading) && error == old(error)
      ensures totalItems == old(totalItems)
    {
      currentPage := page;
    }

    /** The Previous button of the footer, wired to `handlePageChange`. */
    method ClickPrevious()
      modifies this
      requires Valid()
      ensures Valid()
      ensures currentPage == (if old(currentPage) > 1 then old(currentPage) - 1 else old(currentPage))
      ensures old(1 <= currentPage <= TotalPages()) ==> 1 <= currentPage <= TotalPages()
      ensures old(currentPage) >= 1 ==> currentPage >= 1
      ensures searchQuery == old(searchQuery) && selectedCategory == old(selectedCategory)
      ensures sortBy == old(sortBy) && sortOrder == old(sortOrder)
      ensures products == old(products) && loading == old(loading) && error == old(error)
      ensures totalItems == old(totalItems)
    {
      var request := Pagination.PreviousRequest(currentPage, TotalPages());
      if request.Some? {
        HandlePageChange(request.value);
      }
    }

    /** The Next button of the footer, wired to `handlePageChange`. */
    method ClickNext()
      modifies this
      requires Valid()
      ensures Valid()
      ensures currentPage == (if old(currentPage) < old(TotalPages()) then old(currentPage) + 1 else old(currentPage))
      ensures old(1 <= currentPage <= TotalPages()) ==> 1 <= currentPage <= TotalPages()
      ensures old(currentPage) >= 1 ==> currentPage >= 1
      ensures searchQuery == old(searchQuery) && selectedCategory == old(selectedCategory)
      ensures sortBy == old(sortBy) && sortOrder == old(sortOrder)
      ensures products == old(products) && loading == old(loading) && error == old(error)
      ensures totalItems == old(totalItems)
    {
      var request := Pagination.NextRequest(currentPage, TotalPages());
      if request.Some? {
        HandlePageChange(request.value);
      }
    }

    /**
     * `fetchProducts` up to the awaited `fetch` (also what `handleRetry`
     * runs): loading on, error cleared, and the request built from the
     * state.
     */
    method BeginFetch() returns (req: Request)
      modifies this
      requires Valid()
      ensures Valid()
      ensures loading && error == None
      ensures req.params == ListParams(currentPage, Pages.Limit, searchQuery, selectedCategory)
      ensures req.sort == SortKey(sortBy, sortOrder)
      ensures products == old(products) && totalItems == old(totalItems)
      ensures searchQuery == old(searchQuery) && selectedCategory == old(selectedCategory)
      ensures sortBy == old(sortBy) && sortOrder == old(sortOrder) && currentPage == old(currentPage)
    {
      loading := true;
      error := None;
      req := Request(ListParams(currentPage, Pages.Limit, searchQuery, selectedCategory), SortKey(sortBy, sortOrder));
    }

    /**
     * `fetchProducts` after the awaited `fetch`: on success the sorted copy
     * of the page and its total, otherwise the error message; loading off
     * in every case (`finally`).
     */
    method CompleteFetch(req: Request, outcome: FetchOutcome<ListResponse>)
      modifies this
      requires Valid()
      ensures Valid() && !loading
      ensures outcome.Responded? && outcome.ok ==>
                && products == Sort(req.sort, outcome.body.items)
                && totalItems == outcome.body.total
                && error == old(error)
      ensures outcome.Responded? && !outcome.ok ==>
                error == Some(FailedToFetch) && products == old(products) && totalItems == old(totalItems)
      ensures outcome.Rejected? ==>
                error == Some(ErrorText(outcome.thrown)) && products == old(products) && totalItems == old(totalItems)
      ensures searchQuery == old(searchQuery) && selectedCategory == old(selectedCategory)
      ensures sortBy == old(sortBy) && sortOrder == old(sortOrder) && currentPage == old(currentPage)
    {
      match outcome {
        case Rejected(t) =>
          error := Some(ErrorText(t));
        case Responded(ok, body) =>
          if !ok {
            error := Some(FailedToFetch);
          } else {
            var sorted := SortedCopy(body.items, req.sort);
            products := sorted;
            totalItems := body.total;
          }
      }
      loading := false;
    }
  }

  /**
   * A whole fetch cycle: the rendered rows are a permutation of the page
   * received, in the order of the state's sort settings, and the panel is
   * the table exactly when the page is not empty.
   */
  method FetchCycle(view: ProductList, body: ListResponse)
    requires view.Valid()
    modifies view
    ensures view.Valid()
    ensures multiset(view.products) == multiset(body.items)
    ensures Sorted(SortKey(old(view.sortBy), old(view.sortOrder)), view.products)
    ensures view.totalItems == body.total
    ensures view.CurrentPanel() == (if body.items == [] then EmptyPanel else TablePanel)
  {
    var req := view.BeginFetch();
    view.CompleteFetch(req, Responded(true, body));
    SortPermutes(req.sort, body.items);
    SortSorted(req.sort, body.items);
    assert |view.products| == |body.items| by {
      assert |multiset(view.products)| == |multiset(body.items)|;
    }
  }
}
