# Product list view: a verified model of its client-side logic

This project models the list screen of a browser catalog viewer. The screen
fetches one page of products from `GET /products`, lets the user search,
filter by category, sort by name or price and step through pages, and shows
one of four panels: a spinner, an error, "no products", or the table. Three
versions of that logic are modelled:

- the current component `ProductList.tsx`;
- its earlier version `backup/productslist.tsx`;
- the `useProducts` hook.

The pager `Pagination.tsx` is modelled as well. Each network response is an
input value (`Catalog.FetchOutcome`). Each effect is split into its start
(`Begin…`), which runs up to the awaited `fetch`, and its completion
(`Complete…`), which covers `then`/`catch`/`finally`.

Modules:

- `Catalog` (src/types.ts): the records, JavaScript values, thrown errors.
- `Text`: a total order on names that stands in for `localeCompare`, and `String(n)` for integers.
- `Pages`: `Math.ceil(total / limit)` on integers.
- `Pagination`: the Previous/Next handlers and their `disabled` tests.
- `ProductSort`: the comparator, a stable insertion sort (`Sort`) that specifies `Array.prototype.sort`, the in-place array sort and reverse.
- `Categories`: `Array.from(new Set(...))` as first-occurrence de-duplication.
- `QueryParams`: the request parameters as ordered key/value pairs.
- `ProductListView`, `BackupList`, `UseProductsHook`: the three state holders, each a class whose methods update its fields.

Modelling choices:

- Prices are integers (cents).
- Names are compared lexicographically by character code. This is a total order standing in for `localeCompare`.
- `Array.prototype.sort` is stable. `ProductSort.Sort` is proved to order the page (`SortSorted`), to keep its products (`SortPermutes`) and to keep tied products in their given order (`SortStable`). A list with those three properties is unique when the comparator is consistent, so `Sort` stands for the built-in sort whatever algorithm the engine uses. That uniqueness is a modelling argument; no lemma here states it.
- `Catalog.Value` compares objects by an identity number (`Ref`). So `==` on it is the SameValueZero equality that a `Set` uses, with integer numbers only.
- In ProductList.tsx the `error` state is a string. JavaScript truthiness is modelled: an empty message renders no error panel.
- ProductList.tsx's request object records the `sortBy`/`sortOrder` the `fetchProducts` closure saw. The completion sorts by those values, not by the state current when the response arrives.
- The page is not clamped to `[1, totalPages]`. Only the Previous/Next steps are bounded. `handlePageChange` stores any number, and a new total can put the current page past the last one.

## Model

| member | source | states |
|---|---|---|
| Text.NameCmp | src/features/products/ProductList.tsx:54-55 | the name comparison is three-way (-1, 0, 1) and is 0 exactly for equal names |
| Text.NameCmpAntisymmetric | src/features/products/ProductList.tsx:53-55 | comparing `b` with `a` gives the negation of comparing `a` with `b`, so `desc` is the ascending comparison flipped |
| Text.NameCmpTransitive | src/features/products/ProductList.tsx:54 | "not after" on names is transitive, so the name comparator is a consistent order |
| Text.IntStringRoundTrip | src/features/products/ProductList.tsx:36-37 | the decimal text `toString()` gives an integer is read back as that integer |
| Text.IntStringInjective | src/features/products/ProductList.tsx:36 | different page numbers give different `page` values |
| Text.IntString | src/features/products/ProductList.tsx:36-37 | `toString()` of an integer below 10^21 in magnitude: the decimal digits with a leading `-` for negatives, no leading zeros |
| Pages.CeilDiv | src/features/products/ProductList.tsx:24 | `Math.ceil(t / d)` is the `k` with `(k - 1) * d < t <= k * d` |
| Pages.CeilDivIsLeast | src/features/products/ProductList.tsx:24 | `totalPages` is the least page count whose pages hold `totalItems` rows |
| Pages.CeilDivCounts | src/features/products/ProductList.tsx:24 | no rows give 0 pages; at least one row gives at least 1 page |
| Pagination.PreviousRequest | src/features/products/components/Pagination.tsx:8-12 | the page `handlePrevious` passes to `onPageChange`, or none |
| Pagination.NextRequest | src/features/products/components/Pagination.tsx:14-18 | the page `handleNext` passes to `onPageChange`, or none |
| Pagination.PreviousDisabled | src/features/products/components/Pagination.tsx:27 | the Previous button's `disabled` test, equality with 1 |
| Pagination.NextDisabled | src/features/products/components/Pagination.tsx:40 | the Next button's `disabled` test, equality with `totalPages` |
| Pagination.PreviousStep | src/features/products/components/Pagination.tsx:8-12 | Previous requests `currentPage - 1` exactly when `currentPage > 1`, and otherwise requests nothing |
| Pagination.NextStep | src/features/products/components/Pagination.tsx:14-18 | Next requests `currentPage + 1` exactly when `currentPage < totalPages`, and otherwise requests nothing |
| Pagination.RequestsStayInRange | src/features/products/components/Pagination.tsx:8-18 | from a page in `[1, totalPages]`, every requested page is in `[1, totalPages]` |
| Pagination.NextThenPrevious | src/features/products/components/Pagination.tsx:8-18 | Previous after a Next that did something returns to the starting page |
| Pagination.PreviousThenNext | src/features/products/components/Pagination.tsx:8-18 | Next after a Previous that did something returns to the starting page |
| Pagination.DisabledMeansInert | src/features/products/components/Pagination.tsx:25-44 | the buttons test `=== 1` and `=== totalPages`; on a page in range, a disabled button is exactly one whose handler does nothing |
| Pagination.NextEnabledButInertPastLastPage | src/features/products/components/Pagination.tsx:38-40 | past the last page, Next is enabled and requests nothing, because the test is equality and not `>=` |
| ProductSort.CompareTransitive | src/features/products/ProductList.tsx:51-60 | for every `sortBy`/`sortOrder`, "not after" under the comparator is transitive |
| ProductSort.CompareFlip | src/features/products/ProductList.tsx:51-60 | if the comparator puts `a` after `b`, it puts `b` before `a` |
| ProductSort.Compare | src/features/products/ProductList.tsx:51-60 | the comparator: name comparison or price difference, arguments swapped for desc, 0 for any other `sortBy` |
| ProductSort.Sort | src/features/products/ProductList.tsx:50-51 | the stable sort of a list under the comparator |
| ProductSort.InsertPermutes | src/features/products/ProductList.tsx:51 | one insertion step adds exactly the inserted product |
| ProductSort.InsertSorted | src/features/products/ProductList.tsx:51-60 | inserting into an ordered list keeps it ordered |
| ProductSort.SortPermutes | src/features/products/ProductList.tsx:50-51 | the sorted page holds the same products as `data.items`, each as often |
| ProductSort.SortSorted | src/features/products/ProductList.tsx:51-60 | every earlier product of the sorted page may stand before every later one |
| ProductSort.SortOfSortedIsIdentity | src/features/products/ProductList.tsx:51-60 | a page already in order comes back unchanged (the sort is stable) |
| ProductSort.SortOtherKeyKeepsOrder | src/features/products/ProductList.tsx:56-59 | for a `sortBy` other than name and price, the comparator returns 0 and the page keeps the server's order |
| ProductSort.SortOrderByKey | src/features/products/ProductList.tsx:52-58 | price/asc is non-decreasing, price/desc non-increasing, name/asc follows the name order, name/desc goes against it |
| ProductSort.TiesAppend | src/features/products/ProductList.tsx:51 | the products tying with `x` in `a + b` are those in `a` followed by those in `b` |
| ProductSort.TieTransitive | src/features/products/ProductList.tsx:51-60 | two products that tie with a third tie with each other, for every `sortBy`/`sortOrder` |
| ProductSort.InsertStable | src/features/products/ProductList.tsx:51 | an insertion step places the inserted product after every product it ties with |
| ProductSort.SortStable | src/features/products/ProductList.tsx:50-60 | the sort is stable: the products that tie with any `x` keep their relative order |
| ProductSort.ReverseAt | src/features/products/backup/productslist.tsx:82 | element `i` of the reversed list is element `n - 1 - i` of the list |
| ProductSort.Reverse | src/features/products/backup/productslist.tsx:82 | `reverse()`: same length, elements in the opposite order |
| ProductSort.ReversePermutes | src/features/products/backup/productslist.tsx:82 | reversing keeps the same products |
| ProductSort.ReverseOfSorted | src/features/products/backup/productslist.tsx:77-82 | reversing an ordered list gives the opposite order |
| ProductSort.SortExtend | src/features/products/ProductList.tsx:51 | sorting one more element inserts it into the sorted prefix |
| ProductSort.SwapStep | src/features/products/ProductList.tsx:51 | one swap of the in-place insertion keeps its invariant |
| ProductSort.InsertDone | src/features/products/ProductList.tsx:51 | the in-place insertion, once stopped, has built the insertion of the specification |
| ProductSort.InsertAt | src/features/products/ProductList.tsx:51 | one in-place insertion step on the array computes `Insert` and leaves the unsorted rest alone |
| ProductSort.SortInPlace | src/features/products/ProductList.tsx:51-60 | `sort` on the array leaves it equal to `Sort` of its old contents |
| ProductSort.ReverseInPlace | src/features/products/backup/productslist.tsx:82 | `reverse` on the array leaves it equal to `Reverse` of its old contents |
| ProductSort.SortedCopy | src/features/products/ProductList.tsx:50-60 | `[...data.items]` sorted is `Sort` of the items, a permutation of them, and in order; the input is not changed |
| Categories.FirstIndex | src/features/products/hooks/useProducts.ts:41-43 | the first occurrence of a value is an index where it stands, with none before it |
| Categories.FirstIndexInPrefix | src/features/products/hooks/useProducts.ts:41-43 | a first occurrence inside a prefix is the first occurrence in the whole list |
| Categories.Distinct | src/features/products/hooks/useProducts.ts:41-43 | the `Set` of a list holds exactly the list's values |
| Categories.DistinctNoDuplicates | src/features/products/hooks/useProducts.ts:41-43 | no value is listed twice |
| Categories.DistinctFirstOccurrenceOrder | src/features/products/hooks/useProducts.ts:41-43 | listed values are in the order of their first occurrences |
| Categories.StringCategories | src/features/products/backup/productslist.tsx:54-56 | the mapped and filtered list holds exactly the string categories of the items |
| Categories.StringCategoriesAppend | src/features/products/backup/productslist.tsx:54-56 | map and filter keep item order: the string categories of `a + b` are those of `a` followed by those of `b`, and a single item contributes its category exactly when it is a string |
| Categories.AllCategories | src/features/products/hooks/useProducts.ts:42 | the mapped list holds each item's category in item order |
| Categories.BackupCategoryList | src/features/products/backup/productslist.tsx:52-58 | the backup's category list is duplicate-free, holds exactly the string categories (others dropped), and lists them in the order of their first occurrence in the filtered list, which keeps item order (`StringCategoriesAppend`) |
| Categories.HookCategoryList | src/features/products/hooks/useProducts.ts:41-45 | the hook's category list is duplicate-free, covers every item's category, holds only those, and keeps first-occurrence order |
| QueryParams.Keys | src/features/products/ProductList.tsx:35-41 | the keys of the pairs, in order |
| QueryParams.ListParams | src/features/products/ProductList.tsx:35-41 | the pairs ProductList.tsx sends |
| QueryParams.AllParams | src/features/products/hooks/useProducts.ts:24-29 | the pairs the hook sends (also backup/productslist.tsx:29-34) |
| QueryParams.GetConcat | src/features/products/ProductList.tsx:40-41 | `get` on appended pairs finds the first part's value first |
| QueryParams.ListParamsShape | src/features/products/ProductList.tsx:35-41 | `page` and then `limit` come first; `query` and `category` are appended exactly when non-empty, in that order; the values read back are the state's |
| QueryParams.AllParamsShape | src/features/products/hooks/useProducts.ts:24-29 | keys are `query`, `category`, `page`, `limit` in that order, even when empty, with the state's values (also backup/productslist.tsx:29-34) |
| ProductListView.ExactlyOnePanel | src/features/products/ProductList.tsx:130-146 | exactly one of the four guarded panels shows, it is the one of the loading > error > empty > table precedence, and the footer shows exactly with the table |
| ProductListView.Truthy | src/features/products/ProductList.tsx:132 | the truthiness of the `error` state: set and non-empty |
| ProductListView.Shows | src/features/products/ProductList.tsx:130-142 | the guard in front of each of the four panels |
| ProductListView.ShowsFooter | src/features/products/ProductList.tsx:146 | the guard of the pagination footer |
| ProductListView.Display | src/features/products/ProductList.tsx:130-142 | the panel picked by the loading > error > empty > table precedence, and its guard holds |
| ProductListView.ErrorText | src/features/products/ProductList.tsx:65 | the message an `Error` carries, else "An error occurred" |
| ProductListView.Toggled | src/features/products/ProductList.tsx:85-87 | the toggle always changes the order |
| ProductListView.ToggleTwice | src/features/products/ProductList.tsx:85-87 | toggling twice restores the order |
| ProductListView.ProductList.constructor | src/features/products/ProductList.tsx:9-21 | the initial state: no products, loading, no error, empty filters, name/asc, page 1, total 0 |
| ProductListView.ProductList.TotalPages | src/features/products/ProductList.tsx:24 | `totalPages` of the state: `(r - 1) * 8 < totalItems <= r * 8` |
| ProductListView.ProductList.CurrentPanel | src/features/products/ProductList.tsx:130-142 | the panel the content area renders for the state |
| ProductListView.ProductList.HandleSearchChange | src/features/products/ProductList.tsx:71-74 | sets the query and page 1; nothing else changes |
| ProductListView.ProductList.HandleCategoryChange | src/features/products/ProductList.tsx:76-79 | sets the category and page 1; nothing else changes |
| ProductListView.ProductList.HandleSortChange | src/features/products/ProductList.tsx:81-83 | sets only `sortBy`; the page is kept |
| ProductListView.ProductList.HandleSortOrderToggle | src/features/products/ProductList.tsx:85-87 | flips only the order; the page is kept |
| ProductListView.ProductList.HandlePageChange | src/features/products/ProductList.tsx:89-91 | sets only the page |
| ProductListView.ProductList.ClickPrevious | src/features/products/ProductList.tsx:153-157 | the footer's Previous moves one page back when above page 1, keeps the page within `[1, totalPages]`, and changes nothing else |
| ProductListView.ProductList.ClickNext | src/features/products/ProductList.tsx:153-157 | the footer's Next moves one page on when below `totalPages`, keeps the page within `[1, totalPages]`, and changes nothing else |
| ProductListView.ProductList.BeginFetch | src/features/products/ProductList.tsx:31-41 | loading on, error cleared, request built from page, limit 8, query and category, with the sort settings the closure holds; filters and data unchanged |
| ProductListView.ProductList.CompleteFetch | src/features/products/ProductList.tsx:43-68 | success stores the sorted copy of the items and the total; non-ok records "Failed to fetch products"; a thrown `Error` records its message, anything else "An error occurred"; loading off in every case |
| ProductListView.FetchCycle | src/features/products/ProductList.tsx:30-68 | after a successful fetch the rows are a permutation of the page in the requested order, and the table shows exactly when the page is non-empty |
| BackupList.PageCountLabel | src/features/products/backup/productslist.tsx:285 | for every total, the label is 1 when `ceil(total / 8)` is 0 and is `ceil(total / 8)` otherwise (negative for a total of -8 or below); it is never 0; for a non-negative total it is the least positive page count holding the total |
| BackupList.AscendingKey | src/features/products/backup/productslist.tsx:77-80 | the memo's comparator: price ascending for price, otherwise name ascending |
| BackupList.ItemList | src/features/products/backup/productslist.tsx:47 | `raw.items` when it is an array, else no items |
| BackupList.TotalOf | src/features/products/backup/productslist.tsx:50 | `raw.total` when it is a number, else the item count |
| BackupList.ShownOrder | src/features/products/backup/productslist.tsx:74-84 | the list the memo returns: the ascending sort, reversed for desc |
| BackupList.Shows | src/features/products/backup/productslist.tsx:175-193 | the guard in front of each panel; the error guard does not test `loading` |
| BackupList.ProductList.PageCount | src/features/products/backup/productslist.tsx:285 | the label of the state's total, `PageCountLabel(total)` |
| BackupList.ShownOrderProperties | src/features/products/backup/productslist.tsx:74-84 | the shown list is a permutation of the products; asc is in the field's order; desc is that order reversed (prices non-increasing, names against the name order) |
| BackupList.ExactlyOnePanel | src/features/products/backup/productslist.tsx:175-193 | while loading implies no error, exactly one of the four panels shows |
| BackupList.ProductList.CurrentPanel | src/features/products/backup/productslist.tsx:175-193 | in a valid state (loading implies no error) there is a panel whose guard holds, and no other guard holds |
| BackupList.TwoPanelsWithoutInvariant | src/features/products/backup/productslist.tsx:175-185 | the error guard does not test `loading`; only the view's invariant keeps the spinner and the error apart |
| BackupList.ProductList.constructor | src/features/products/backup/productslist.tsx:13-24 | the initial state: empty filters, name/asc, page 1, no data, loading, no error |
| BackupList.ProductList.OnQueryChange | src/features/products/backup/productslist.tsx:156-159 | sets the query and page 1; nothing else changes |
| BackupList.ProductList.OnCategoryChange | src/features/products/backup/productslist.tsx:160-163 | sets the category and page 1; nothing else changes |
| BackupList.ProductList.OnSortByChange | src/features/products/backup/productslist.tsx:164 | sets only the sort field; the page is kept |
| BackupList.ProductList.OnSortDirectionChange | src/features/products/backup/productslist.tsx:165 | sets only the direction; the page is kept |
| BackupList.ProductList.OnPageChange | src/features/products/backup/productslist.tsx:217 | sets only the page |
| BackupList.ProductList.BeginEffect | src/features/products/backup/productslist.tsx:26-37 | the request has all four keys with limit 8; loading on and error cleared |
| BackupList.ProductList.CompleteEffect | src/features/products/backup/productslist.tsx:39-69 | items are `raw.items` if an array, else none; total is `raw.total` if a number, else the item count; categories are the distinct string categories; a non-ok response, a `null` body or a thrown non-abort `Error` is recorded; an abort or a thrown non-`Error` is not; loading off |
| BackupList.ProductList.SortedProducts | src/features/products/backup/productslist.tsx:74-84 | the memo's copy, sorted and then reversed for desc, is `ShownOrder` of the products, a permutation of them of the same length; `products` is not changed |
| UseProductsHook.ProductsState.constructor | src/features/products/hooks/useProducts.ts:12-16 | the initial state: no data, loading, no error |
| UseProductsHook.ProductsState.BeginEffect | src/features/products/hooks/useProducts.ts:21-29 | loading on, error cleared, the request with all four keys in order |
| UseProductsHook.ProductsState.CompleteEffect | src/features/products/hooks/useProducts.ts:32-54 | success stores `json.data`, `json.total` and their distinct categories; non-ok records "Failed to fetch products"; an abort or thrown non-`Error` records nothing; loading off |
| UseProductsHook.AbortedRun | src/features/products/hooks/useProducts.ts:47-54 | a request aborted after it starts leaves no error and the data as it was |

## Left out

- `fetch`, `AbortController`, `res.json()` and React's scheduling of effects and renders. These are network I/O and framework plumbing. A response is an input value, and each effect is a start step and a completion step run in sequence.
- Interleavings of overlapping requests are not modelled. Two cases follow from this:
  - In the backup view and the hook, the `finally` of an aborted request still sets loading off while the newer request is pending.
  - In ProductList.tsx there is no abort, so a late response can overwrite a newer one.
- Percent-encoding of the query string by `URLSearchParams`. Parameters are ordered key/value pairs.
- The internals of `localeCompare` and floating-point prices. Names use a lexicographic total order, and prices are integers. `NaN` and `-0` are therefore outside `Catalog.Value`.
- JavaScript numbers other than prices. Totals, pages and the limit are unbounded integers (`Catalog.Value.Num` holds an `int`). Three behaviours of real numbers are therefore not modelled:
  - non-integer or infinite totals, which `typeof raw.total === "number"` accepts (backup/productslist.tsx:50) and for which `Math.ceil(total / limit) || 1` gives a fraction's ceiling or `Infinity`;
  - integers past 2^53, where `currentPage + 1` can equal `currentPage`;
  - the exponent form (`"1e+21"`) that `toString()` gives from 10^21 in magnitude up; `Text.IntString` always gives plain digits.
- JSX rendering and styling: `ProductsTable.tsx`, `States.tsx`, `ProductsToolbar.tsx`, `Logo.tsx` and `App.tsx`. This includes the toolbar's 'All Categories' → '' option mapping; the model takes the value a handler receives as given.
- `ProductDetails.tsx`, which is a single fetch by id.
- The `Pagination` component the backup view renders takes `page`/`pageSize`/`total` props. No version of it with those props is part of this model. Only its `onPageChange = setPage` wiring is modelled (`BackupList.ProductList.OnPageChange`).
- The optional `description` and `imageUrl` fields of `Product`. No modelled logic reads them.
- Malformed response bodies. The model types `data.items` (ProductList.tsx) and `json.data` (the hook) as arrays of products, as src/types.ts declares. Three behaviours follow from this and are not modelled:
  - In the hook, `setProducts(json.data)` and `setTotal(json.total)` (useProducts.ts:38-39) run before `json.data.map` (line 42). A `json.data` that is not an array, or that holds `null`, makes `.map` throw after products and total have changed. The categories then stay as they were and the `TypeError` is recorded. This partial update is outside the model.
  - In ProductList.tsx, `[...data.items]` throws for `undefined` or `null`. Nothing has been stored yet at that point, so this matches a `Rejected` outcome carrying that `TypeError`. A string `items` is spread into its characters, and what follows depends on the sort: under a name sort of two or more characters the comparator calls `localeCompare` on an `undefined` name and the `TypeError` is recorded, while under a price sort, another `sortBy` or a single character the characters become rows. The outcome of a string `items` is not modelled.
  - Elements of the backup's `raw.items` that are not product objects.
- The `console.log` of the response in the backup view.
- `BackupList.NullBodyError` uses V8's wording for the `TypeError` raised when reading a field of `null`. Other engines word it differently.
