/**
 * The query string of `GET /products`, as the ordered key/value pairs of a
 * `URLSearchParams` (its percent-encoding is not part of this model).
 */
module QueryParams {
  import opened Wrappers
  import opened Text

  type Params = seq<(string, string)>

  function Keys(p: Params): (r: seq<string>)
    ensures |r| == |p| && forall i :: 0 <= i < |p| ==> r[i] == p[i].0
  {
    seq(|p|, i requires 0 <= i < |p| => p[i].0)
  }

  /** `params.get(key)`: the value of the first pair with that key. */
  function Get(p: Params, key: string): Option<string> {
    if p == [] then None
    else if p[0].0 == key then Some(p[0].1)
    else Get(p[1..], key)
  }

  /**
   * ProductList.tsx: `page` and `limit` from the constructor, then `query`
   * and `category` appended only when non-empty (truthy).
   */
  function ListParams(currentPage: int, limit: int, query: string, category: string): Params {
    [("page", IntString(currentPage)), ("limit", IntString(limit))]
    + (if query != "" then [("query", query)] else [])
    + (if category != "" then [("category", category)] else [])
  }

  /** The backup view and `useProducts`: all four keys, empty values included. */
  function AllParams(query: string, category: string, page: int, limit: int): Params {
    [("query", query), ("category", category), ("page", IntString(page)), ("limit", IntString(limit))]
  }

  lemma {:induction false} GetConcat(p: Params, q: Params, key: string)
    ensures Get(p + q, key) == if Get(p, key).Some? then Get(p, key) else Get(q, key)
  {
    if p == [] {
      assert p + q == q;
    } else {
      assert (p + q)[1..] == p[1..] + q;
      GetConcat(p[1..], q, key);
    }
  }

  /**
   * The filtered request: `page` then `limit` first, then `query` and
   * `category` exactly when they are non-empty, in that order; every value
   * the server reads back is the one the state held.
   */
  lemma ListParamsShape(currentPage: int, limit: int, query: string, category: string)
    ensures var p := ListParams(currentPage, limit, query, category);
            && Keys(p) == ["page", "limit"] + (if query != "" then ["query"] else [])
                                            + (if category != "" then ["category"] else [])
            && p[0] == ("page", IntString(currentPage)) && p[1] == ("limit", IntString(limit))
            && Get(p, "query") == (if query != "" then Some(query) else None)
            && Get(p, "category") == (if category != "" then Some(category) else None)
            && Get(p, "page") == Some(IntString(currentPage)) && ParseInt(IntString(currentPage)) == Some(currentPage)
            && Get(p, "limit") == Some(IntString(limit)) && ParseInt(IntString(limit)) == Some(limit)
  {
    var head: Params := [("page", IntString(currentPage)), ("limit", IntString(limit))];
    var q: Params := if query != "" then [("query", query)] else [];
    var c: Params := if category != "" then [("category", category)] else [];
    var p := ListParams(currentPage, limit, query, category);
    assert p == head + (q + c);
    GetConcat(head, q + c, "query");
    GetConcat(head, q + c, "category");
    GetConcat(head, q + c, "page");
    GetConcat(head, q + c, "limit");
    GetConcat(q, c, "query");
    GetConcat(q, c, "category");
    IntStringRoundTrip(currentPage);
    IntStringRoundTrip(limit);
  }

  /** The request with every key: `query`, `category`, `page`, `limit` in that order, whatever their values. */
  lemma AllParamsShape(query: string, category: string, page: int, limit: int)
    ensures var p := AllParams(query, category, page, limit);
            && Keys(p) == ["query", "category", "page", "limit"]
            && Get(p, "query") == Some(query)
            && Get(p, "category") == Some(category)
            && Get(p, "page") == Some(IntString(page)) && ParseInt(IntString(page)) == Some(page)
            && Get(p, "limit") == Some(IntString(limit)) && ParseInt(IntString(limit)) == Some(limit)
  {
    var p := AllParams(query, category, page, limit);
    var rest: Params := [("page", IntString(page)), ("limit", IntString(limit))];
    var front: Params := [p[0], p[1]];
    assert p == front + rest;
    assert front[1..] == [p[1]] && front[1..][1..] == [];
    assert front[0].0 != "page" && front[0].0 != "limit" by {
      assert front[0].0 == "query" && "query"[0] != "page"[0] && "query"[0] != "limit"[0];
    }
    assert front[1].0 != "page" && front[1].0 != "limit" by {
      assert front[1].0 == "category" && "category"[0] != "page"[0] && "category"[0] != "limit"[0];
    }
    assert Get(front[1..], "page") == None && Get(front[1..], "limit") == None;
    assert Get(front, "page") == None && Get(front, "limit") == None;
    GetConcat([p[0], p[1]], rest, "page");
    GetConcat([p[0], p[1]], rest, "limit");
    IntStringRoundTrip(page);
    IntStringRoundTrip(limit);
  }
}
