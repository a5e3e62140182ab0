/**
 * The `useProducts` hook of src/features/products/hooks/useProducts.ts:
 * the state it returns and the effect that refreshes it whenever its
 * arguments change.
 */
module UseProductsHook {
  import opened Wrappers
  import opened Catalog
  import opened QueryParams
  import opened Categories

  class ProductsState {
    var products: seq<Product>
    var total: int
    var categories: seq<Value>
    var loading: bool
    var error: Option<JsError>

    /** A request in flight has cleared the error. */
    ghost predicate Valid()
      reads this
    {
      loading ==> error == None
    }

    constructor ()
      ensures Valid()
      ensures products == [] && total == 0 && categories == [] && loading && error == None
    {
      products, total, categories, loading, error := [], 0, [], true, None;
    }

    /** The effect up to `fetch`: loading on, error cleared, the request with all four keys in order. */
    method BeginEffect(query: string, category: string, page: int, limit: int) returns (params: Params)
      modifies this
      requires Valid()
      ensures Valid()
      ensures loading && error == None
      ensures params == AllParams(query, category, page, limit)
      ensures products == old(products) && total == old(total) && categories == old(categories)
    {
      loading := true;
      error := None;
      params := AllParams(query, category, page, limit);
    }

    /**
     * The effect's `then`, `catch` and `finally`: on success the page's
     * products, its total and their distinct categories; a non-ok response
     * records "Failed to fetch products"; an abort or a thrown non-`Error`
     * records nothing; loading off in every case.
     */
    method CompleteEffect(outcome: FetchOutcome<ProductsResponse>)
      modifies this
      requires Valid()
      ensures Valid() && !loading
      ensures outcome.Responded? && outcome.ok ==>
                && products == outcome.body.data
                && total == outcome.body.total
                && categories == Distinct(AllCategories(outcome.body.data))
                && error == old(error)
      ensures outcome.Responded? && !outcome.ok ==>
                error == Some(JsError(PlainErrorName, FailedToFetch))
      ensures outcome.Rejected? && outcome.thrown.ErrorInstance? && !IsAbort(outcome.thrown) ==>
                error == Some(outcome.thrown.err)
      ensures outcome.Rejected? && (IsAbort(outcome.thrown) || outcome.thrown.OtherThrown?) ==>
                error == old(error)
      ensures !(outcome.Responded? && outcome.ok) ==>
                products == old(products) && total == old(total) && categories == old(categories)
    {
      match outcome {
        case Responded(ok, body) =>
          if !ok {
            error := Some(JsError(PlainErrorName, FailedToFetch));
          } else {
            products := body.data;
            total := body.total;
            categories := Distinct(AllCategories(body.data));
          }
        case Rejected(t) =>
          if t.ErrorInstance? && t.err.name != AbortErrorName {
            error := Some(t.err);
          }
      }
      loading := false;
    }
  }

  /** A request that is aborted right after it starts leaves no error behind. */
  method AbortedRun(state: ProductsState, query: string, category: string, page: int, limit: int, message: string)
    requires state.Valid()
    modifies state
    ensures state.Valid()
    ensures !state.loading && state.error == None
    ensures state.products == old(state.products) && state.total == old(state.total)
  {
    var _ := state.BeginEffect(query, category, page, limit);
    state.CompleteEffect(Rejected(ErrorInstance(JsError(AbortErrorName, message))));
  }
}
