/**
 * The category lists built with `Array.from(new Set(...))`: a `Set` keeps
 * the first occurrence of each value, in insertion order.
 */
module Categories {
  import opened Catalog

  /** `Array.from(new Set(s))`: each value once, where it first occurs. */
  function Distinct<T(==, !new)>(s: seq<T>): (r: seq<T>)
    ensures forall x :: x in r <==> x in s
    decreases |s|
  {
    if s == [] then []
    else
      assert s == s[..|s| - 1] + [s[|s| - 1]];
      var seen := Distinct(s[..|s| - 1]);
      if s[|s| - 1] in seen then seen else seen + [s[|s| - 1]]
  }

  predicate NoDuplicates<T(==)>(s: seq<T>) {
    forall i, j :: 0 <= i < j < |s| ==> s[i] != s[j]
  }

  /** The position of the first occurrence of `x` in `s`. */
  function FirstIndex<T(==)>(s: seq<T>, x: T): (r: nat)
    requires x in s
    ensures r < |s| && s[r] == x
    ensures forall m :: 0 <= m < r ==> s[m] != x
  {
    if s[0] == x then 0 else 1 + FirstIndex(s[1..], x)
  }

  lemma {:induction false} FirstIndexInPrefix<T>(s: seq<T>, n: nat, x: T)
    requires n <= |s| && x in s[..n]
    ensures FirstIndex(s, x) == FirstIndex(s[..n], x)
  {
  }

  /** No value is listed twice. */
  lemma {:induction false} DistinctNoDuplicates<T(!new)>(s: seq<T>)
    ensures NoDuplicates(Distinct(s))
    decreases |s|
  {
    if s != [] {
      DistinctNoDuplicates(s[..|s| - 1]);
    }
  }

  /** Listed values keep the order of their first occurrences in `s`. */
  lemma {:induction false} DistinctFirstOccurrenceOrder<T(!new)>(s: seq<T>)
    ensures forall i, j :: 0 <= i < j < |Distinct(s)| ==>
              FirstIndex(s, Distinct(s)[i]) < FirstIndex(s, Distinct(s)[j])
    decreases |s|
  {
    if s != [] {
      var n := |s| - 1;
      var init, last := s[..n], s[n];
      var seen := Distinct(init);
      DistinctFirstOccurrenceOrder(init);
      forall y | y in seen ensures FirstIndex(s, y) == FirstIndex(init, y) {
        FirstIndexInPrefix(s, n, y);
      }
      if last !in seen {
        assert last !in init;
        assert FirstIndex(s, last) == n;
      }
    }
  }

  /** `p?.category` kept when `typeof` says it is a `"string"` (the `.map` and `.filter` of the backup view). */
  function StringCategories(items: seq<Product>): (r: seq<string>)
    ensures forall c :: c in r <==> exists i :: 0 <= i < |items| && items[i].category == Str(c)
    decreases |items|
  {
    if items == [] then []
    else
      var rest := StringCategories(items[..|items| - 1]);
      var last := items[|items| - 1];
      assert forall i :: 0 <= i < |items| - 1 ==> items[..|items| - 1][i] == items[i];
      if last.category.Str? then rest + [last.category.s] else rest
  }

  /**
   * The map and filter keep the items' order: the string categories of a
   * concatenation are those of its parts, one after the other, and an item
   * contributes its category exactly when that is a string.
   */
  lemma {:induction false} StringCategoriesAppend(a: seq<Product>, b: seq<Product>)
    ensures StringCategories(a + b) == StringCategories(a) + StringCategories(b)
    ensures forall p :: StringCategories([p]) == (if p.category.Str? then [p.category.s] else [])
    decreases |b|
  {
    forall p ensures StringCategories([p]) == (if p.category.Str? then [p.category.s] else []) {
      assert [p][..0] == [];
    }
    if b == [] {
      assert a + b == a;
    } else {
      var init := b[..|b| - 1];
      assert (a + b)[..|a + b| - 1] == a + init;
      assert (a + b)[|a + b| - 1] == b[|b| - 1];
      StringCategoriesAppend(a, init);
    }
  }

  /** `p.category` of every item (the `.map` of the `useProducts` hook). */
  function AllCategories(items: seq<Product>): (r: seq<Value>)
    ensures |r| == |items| && forall i :: 0 <= i < |items| ==> r[i] == items[i].category
  {
    seq(|items|, i requires 0 <= i < |items| => items[i].category)
  }

  /** The backup view's category list: duplicate-free, exactly the string categories, first occurrences first. */
  lemma BackupCategoryList(items: seq<Product>)
    ensures var r := Distinct(StringCategories(items));
            && NoDuplicates(r)
            && (forall c :: c in r <==> exists i :: 0 <= i < |items| && items[i].category == Str(c))
            && (forall i, j :: 0 <= i < j < |r| ==>
                  FirstIndex(StringCategories(items), r[i]) < FirstIndex(StringCategories(items), r[j]))
  {
    DistinctNoDuplicates(StringCategories(items));
    DistinctFirstOccurrenceOrder(StringCategories(items));
  }

  /** The hook's category list: duplicate-free, every item's category and only those, first occurrences first. */
  lemma HookCategoryList(items: seq<Product>)
    ensures var r := Distinct(AllCategories(items));
            && NoDuplicates(r)
            && (forall i :: 0 <= i < |items| ==> items[i].category in r)
            && (forall c :: c in r ==> exists i :: 0 <= i < |items| && items[i].category == c)
            && (forall i, j :: 0 <= i < j < |r| ==>
                  FirstIndex(AllCategories(items), r[i]) < FirstIndex(AllCategories(items), r[j]))
  {
    var all := AllCategories(items);
    DistinctNoDuplicates(all);
    DistinctFirstOccurrenceOrder(all);
    forall c | c in Distinct(all) ensures exists i :: 0 <= i < |items| && items[i].category == c {
      var i :| 0 <= i < |all| && all[i] == c;
      assert items[i].category == c;
    }
  }
}
