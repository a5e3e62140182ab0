/**
 * The data the list views receive: the records of src/types.ts, the
 * JavaScript values a response field may hold at run time, the values a
 * failed request throws, and the outcome of one `fetch`.
 */
module Catalog {

  /**
   * A JavaScript value as a field of a parsed JSON response holds it.
   * Primitives are compared by value and objects or arrays by reference
   * identity (`Ref`), so `==` on this type is the SameValueZero equality
   * that a JavaScript `Set` uses. Numbers are integers.
   */
  datatype Value = Undefined | Null | Bool(b: bool) | Num(n: int) | Str(s: string) | Ref(id: nat)

  /**
   * A catalog item (src/types.ts, `Product`). The price is an integer
   * (cents). The category is declared a string but is kept as the value
   * that arrives, because the backup list view tests its type.
   */
  datatype Product = Product(id: string, name: string, price: int, category: Value, inStock: bool)

  /** The page envelope `ListResponse<Product>` that ProductList.tsx reads. */
  datatype ListResponse = ListResponse(items: seq<Product>, page: int, limit: int, total: int)

  /** The envelope `ProductsResponse` that the `useProducts` hook reads. */
  datatype ProductsResponse = ProductsResponse(data: seq<Product>, total: int)

  /** An `Error` instance: its `name` and its `message`. */
  datatype JsError = JsError(name: string, message: string)

  /** What a rejected promise or a `throw` carries: an `Error` instance or any other value. */
  datatype Thrown = ErrorInstance(err: JsError) | OtherThrown(v: Value)

  /**
   * The outcome of one `fetch` followed by `res.json()`: a response with its
   * `ok` flag and its parsed body, or a rejection (a network failure, an
   * aborted request, or a body that does not parse).
   */
  datatype FetchOutcome<B> = Responded(ok: bool, body: B) | Rejected(thrown: Thrown)

  /** The message thrown for a response whose `ok` flag is false. */
  const FailedToFetch: string := "Failed to fetch products"

  /** The `name` of the error a `fetch` rejects with when its signal is aborted. */
  const AbortErrorName: string := "AbortError"

  /** The `name` an `Error` built with `new Error(...)` carries. */
  const PlainErrorName: string := "Error"

  /** True when `t` is the rejection of an aborted request. */
  predicate IsAbort(t: Thrown) {
    t.ErrorInstance? && t.err.name == AbortErrorName
  }
}
