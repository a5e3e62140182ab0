/**
 * The earlier list view, src/features/products/backup/productslist.tsx:
 * its filter state, the effect that fetches a page with a cancellable
 * request, the `sortedProducts` memo, the panels and the page-count label.
 */
module BackupList {
  import opened Wrappers
  import opened Catalog
  import opened ProductSort
  import opened QueryParams
  import opened Categories
  import Pages

  /** The two sort fields the toolbar offers. */
  datatype SortField = Name | Price

  /** The `items` field of the parsed body: an array, or any other value. */
  datatype RawItems = ItemArray(elems: seq<Product>) | NotAnArray(v: Value)

  /** The parsed body: `null`, or a value whose `items` and `total` fields are read (`undefined` for a non-object). */
  datatype RawBody = NullBody | Body(items: RawItems, total: Value)

  /** The error reading a field of `null` throws (V8's wording). */
  const NullBodyError: JsError := JsError("TypeError", "Cannot read properties of null (reading 'items')")

  /** The ascending comparator of the memo: `a.price - b.price` for price, `localeCompare` of the names otherwise. */
  function AscendingKey(f: SortField): SortKey {
    if f == Price then SortKey("price", Asc) else SortKey("name", Asc)
  }

  /** `Array.isArray(raw.items) ? raw.items : []`. */
  function ItemList(items: RawItems): seq<Product> {
    if items.ItemArray? then items.elems else []
  }

  /** `typeof raw.total === "number" ? raw.total : dataArray.length`. */
  function TotalOf(total: Value, list: seq<Product>): int {
    if total.Num? then total.n else |list|
  }

  /** `Math.ceil(total / limit) || 1`: a ceiling of 0 (or -0) shows as 1. */
  function PageCountLabel(total: int): (r: int)
    ensures r != 0
    ensures total >= 0 ==> r >= 1 && total <= r * Pages.Limit && (r == 1 || (r - 1) * Pages.Limit < total)
    ensures total > 0 ==> r == Pages.CeilDiv(total, Pages.Limit)
    ensures Pages.CeilDiv(total, Pages.Limit) == 0 ==> r == 1
    ensures Pages.CeilDiv(total, Pages.Limit) != 0 ==> r == Pages.CeilDiv(total, Pages.Limit)
  {
    var pages := Pages.CeilDiv(total, Pages.Limit);
    Pages.CeilDivCounts(total, Pages.Limit);
    if pages == 0 then 1 else pages
  }

  /** The order `sortedProducts` shows: the ascending sort, reversed for `desc`. */
  function ShownOrder(products: seq<Product>, field: SortField, direction: SortOrder): seq<Product> {
    var ascending := Sort(AscendingKey(field), products);
    if direction == Desc then Reverse(ascending) else ascending
  }

  /**
   * The shown list is a permutation of the products; ascending it is in the
   * field's order, descending it is that order read backwards, so prices
   * do not increase and names run against the name order.
   */
  lemma ShownOrderProperties(products: seq<Product>, field: SortField, direction: SortOrder)
    ensures var r := ShownOrder(products, field, direction);
            && multiset(r) == multiset(products)
            && (direction == Asc ==> Sorted(AscendingKey(field), r))
            && (direction == Desc ==> forall i, j :: 0 <= i < j < |r| ==> NotAfter(AscendingKey(field), r[j], r[i]))
            && (direction == Desc && field == Price ==> forall i, j :: 0 <= i < j < |r| ==> r[i].price >= r[j].price)
            && (direction == Desc && field == Name ==> forall i, j :: 0 <= i < j < |r| ==> Text.NameCmp(r[j].name, r[i].name) <= 0)
  {
    var k := AscendingKey(field);
    var ascending := Sort(k, products);
    SortPermutes(k, products);
    SortSorted(k, products);
    if direction == Desc {
      ReversePermutes(ascending);
      ReverseOfSorted(k, ascending);
    }
  }

  /** The panels and the guard in front of each one; unlike ProductList.tsx the error panel does not test `loading`. */
  datatype Panel = LoadingPanel | ErrorPanel | EmptyPanel | TablePanel

  predicate Shows(p: Panel, loading: bool, error: Option<JsError>, count: nat) {
    match p
    case LoadingPanel => loading
    case ErrorPanel => error.Some?
    case EmptyPanel => !loading && error.None? && count == 0
    case TablePanel => !loading && error.None? && count > 0
  }

  /** When loading implies no error, which the view keeps, exactly one panel shows. */
  lemma ExactlyOnePanel(loading: bool, error: Option<JsError>, count: nat)
    requires loading ==> error.None?
    ensures exists p :: Shows(p, loading, error, count)
    ensures forall p, q :: Shows(p, loading, error, count) && Shows(q, loading, error, count) ==> p == q
  {
    if loading {
      assert Shows(LoadingPanel, loading, error, count);
    } else if error.Some? {
      assert Shows(ErrorPanel, loading, error, count);
    } else if count == 0 {
      assert Shows(EmptyPanel, loading, error, count);
    } else {
      assert Shows(TablePanel, loading, error, count);
    }
  }

  /** Without that invariant the guards would let the spinner and the error show together. */
  lemma TwoPanelsWithoutInvariant(error: JsError, count: nat)
    ensures Shows(LoadingPanel, true, Some(error), count) && Shows(ErrorPanel, true, Some(error), count)
  {
  }

  class ProductList {
    var query: string
    var category: string
    var sortBy: SortField
    var sortDirection: SortOrder
    var page: int
    var products: seq<Product>
    var total: int
    var categories: seq<string>
    var loading: bool
    var error: Option<JsError>

    /** A request in flight has cleared the error; the panels rely on it. */
    ghost predicate Valid()
      reads this
    {
      loading ==> error == None
    }

    /**
     * The one panel whose guard holds in a valid state.  The guards count
     * `sortedProducts`, which has as many rows as `products`
     * (`SortedProducts`), so the count passed is `|products|`.
     */
    function CurrentPanel(): (p: Panel)
      reads this
      requires Valid()
      ensures Shows(p, loading, error, |products|)
      ensures forall q :: Shows(q, loading, error, |products|) ==> q == p
    {
      ExactlyOnePanel(loading, error, |products|);
      if loading then LoadingPanel
      else if error.Some? then ErrorPanel
      else if |products| == 0 then EmptyPanel
      else TablePanel
    }

    constructor ()
      ensures Valid()
      ensures query == "" && category == "" && sortBy == Name && sortDirection == Asc && page == 1
      ensures products == [] && total == 0 && categories == [] && loading && error == None
    {
      query, category, sortBy, sortDirection, page := "", "", Name, Asc, 1;
      products, total, categories, loading, error := [], 0, [], true, None;
    }

    method OnQueryChange(value: string)
      modifies this
      requires Valid()
      ensures Valid()
      ensures query == value && page == 1
      ensures category == old(category) && sortBy == old(sortBy) && sortDirection == old(sortDirection)
      ensures products == old(products) && total == old(total) && categories == old(categories)
      ensures loading == old(loading) && error == old(error)
    {
      query := value;
      page := 1;
    }

    method OnCategoryChange(value: string)
      modifies this
      requires Valid()
      ensures Valid()
      ensures category == value && page == 1
      ensures query == old(query) && sortBy == old(sortBy) && sortDirection == old(sortDirection)
      ensures products == old(products) && total == old(total) && categories == old(categories)
      ensures loading == old(loading) && error == old(error)
    {
      category := value;
      page := 1;
    }

    method OnSortByChange(value: SortField)
      modifies this
      requires Valid()
      ensures Valid()
      ensures sortBy == value
      ensures page == old(page)
      ensures query == old(query) && category == old(category) && sortDirection == old(sortDirection)
      ensures products == old(products) && total == old(total) && categories == old(categories)
      ensures loading == old(loading) && error == old(error)
    {
      sortBy := value;
    }

    method OnSortDirectionChange(value: SortOrder)
      modifies this
      requires Valid()
      ensures Valid()
      ensures sortDirection == value
      ensures page == old(page)
      ensures query == old(query) && category == old(category) && sortBy == old(sortBy)
      ensures products == old(products) && total == old(total) && categories == old(categories)
      ensures loading == old(loading) && error == old(error)
    {
      sortDirection := value;
    }

    /** `onPageChange` of the footer (`setPage`). */
    method OnPageChange(value: int)
      modifies this
      requires Valid()
      ensures Valid()
      ensures page == value
      ensures query == old(query) && category == old(category)
      ensures sortBy == old(sortBy) && sortDirection == old(sortDirection)
      ensures products == old(products) && total == old(total) && categories == old(categories)
      ensures loading == old(loading) && error == old(error)
    {
      page := value;
    }

    /** The effect up to `fetch`: the request with all four keys, loading on, error cleared. */
    method BeginEffect() returns (params: Params)
      modifies this
      requires Valid()
      ensures Valid()
      ensures params == AllParams(query, category, page, Pages.Limit)
      ensures loading && error == None
      ensures query == old(query) && category == old(category) && page == old(page)
      ensures sortBy == old(sortBy) && sortDirection == old(sortDirection)
      ensures products == old(products) && total == old(total) && categories == old(categories)
    {
      params := AllParams(query, category, page, Pages.Limit);
      loading := true;
      error := None;
    }

    /**
     * The effect's `then`, `catch` and `finally`: store the items (or none),
     * the total (or the item count) and the distinct string categories;
     * record a thrown `Error` unless it is an abort; loading off.
     */
    method CompleteEffect(outcome: FetchOutcome<RawBody>)
      modifies this
      requires Valid()
      ensures Valid() && !loading
      ensures outcome.Responded? && outcome.ok && outcome.body.Body? ==>
                && products == ItemList(outcome.body.items)
                && total == TotalOf(outcome.body.total, products)
                && categories == Distinct(StringCategories(products))
                && error == old(error)
      ensures outcome.Responded? && !outcome.ok ==>
                error == Some(JsError(PlainErrorName, FailedToFetch))
      ensures outcome.Responded? && outcome.ok && outcome.body.NullBody? ==>
                error == Some(NullBodyError)
      ensures outcome.Rejected? && outcome.thrown.ErrorInstance? && !IsAbort(outcome.thrown) ==>
                error == Some(outcome.thrown.err)
      ensures outcome.Rejected? && (IsAbort(outcome.thrown) || outcome.thrown.OtherThrown?) ==>
                error == old(error)
      ensures !(outcome.Responded? && outcome.ok && outcome.body.Body?) ==>
                products == old(products) && total == old(total) && categories == old(categories)
      ensures query == old(query) && category == old(category) && page == old(page)
      ensures sortBy == old(sortBy) && sortDirection == old(sortDirection)
    {
      match outcome {
        case Responded(ok, body) =>
          if !ok {
            error := Some(JsError(PlainErrorName, FailedToFetch));
          } else if body.NullBody? {
            error := Some(NullBodyError);
          } else {
            var list := ItemList(body.items);
            products := list;
            total := TotalOf(body.total, list);
            categories := Distinct(StringCategories(list));
          }
        case Rejected(t) =>
          if t.ErrorInstance? && t.err.name != AbortErrorName {
            error := Some(t.err);
          }
      }
      loading := false;
    }

    /** The `sortedProducts` memo: copy, sort ascending, reverse for `desc`; `products` is not touched. */
    method SortedProducts() returns (list: seq<Product>)
      ensures list == ShownOrder(products, sortBy, sortDirection)
      ensures multiset(list) == multiset(products)
      ensures |list| == |products|
    {
      var copy := products;
      var a := new Product[|copy|](i requires 0 <= i < |copy| => copy[i]);
      assert a[..] == copy;
      SortInPlace(a, AscendingKey(sortBy));
      if sortDirection == Desc {
        ReverseInPlace(a);
      }
      list := a[..];
      ShownOrderProperties(products, sortBy, sortDirection);
    }

    /** The page label of the stats footer. */
    function PageCount(): int
      reads this
    {
      PageCountLabel(total)
    }
  }
}
