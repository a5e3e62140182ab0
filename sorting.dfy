/**
 * Client-side ordering of a page of products: the comparator of
 * ProductList.tsx (which the backup list view uses with an ascending key)
 * and the sort both views run on a copy of the page.
 *
 * `Array.prototype.sort` is stable.  `Sort`, an insertion sort, is shown
 * to order the page (`SortSorted`), to keep its products (`SortPermutes`)
 * and to keep tied products in their given order (`SortStable`); a result
 * with those three properties is unique (an argument, not a lemma here),
 * which is why `Sort` stands for the built-in sort.  `SortInPlace` is that
 * sort on an array.
 */
module ProductSort {
  import opened Catalog
  import opened Text

  datatype SortOrder = Asc | Desc

  /** The pair (`sortBy`, `sortOrder`) the comparator reads. */
  datatype SortKey = SortKey(field: string, order: SortOrder)

  /** The comparator: names or prices, flipped for `Desc`, and 0 for any other `sortBy`. */
  function Compare(k: SortKey, a: Product, b: Product): int {
    if k.field == "name" then
      (if k.order == Asc then NameCmp(a.name, b.name) else NameCmp(b.name, a.name))
    else if k.field == "price" then
      (if k.order == Asc then a.price - b.price else b.price - a.price)
    else 0
  }

  /** `a` may stand before `b`. */
  predicate NotAfter(k: SortKey, a: Product, b: Product) {
    Compare(k, a, b) <= 0
  }

  lemma CompareTransitive(k: SortKey, a: Product, b: Product, c: Product)
    requires NotAfter(k, a, b) && NotAfter(k, b, c)
    ensures NotAfter(k, a, c)
  {
    if k.field == "name" {
      if k.order == Asc {
        NameCmpTransitive(a.name, b.name, c.name);
      } else {
        NameCmpTransitive(c.name, b.name, a.name);
      }
    }
  }

  lemma CompareFlip(k: SortKey, a: Product, b: Product)
    requires Compare(k, a, b) > 0
    ensures Compare(k, b, a) < 0
  {
    NameCmpAntisymmetric(a.name, b.name);
  }

  /** Every earlier element may stand before every later one. */
  predicate Sorted(k: SortKey, s: seq<Product>) {
    forall i, j :: 0 <= i < j < |s| ==> NotAfter(k, s[i], s[j])
  }

  /** Inserts `x` after the last element of `s` that does not compare greater than it. */
  function Insert(k: SortKey, s: seq<Product>, x: Product): seq<Product>
    decreases |s|
  {
    if s == [] then [x]
    else if Compare(k, s[|s| - 1], x) > 0 then
      Insert(k, s[..|s| - 1], x) + [s[|s| - 1]]
    else s + [x]
  }

  /** Stable insertion sort, taking the elements left to right. */
  function Sort(k: SortKey, s: seq<Product>): seq<Product>
    decreases |s|
  {
    if s == [] then []
    else Insert(k, Sort(k, s[..|s| - 1]), s[|s| - 1])
  }

  lemma {:induction false} InsertPermutes(k: SortKey, s: seq<Product>, x: Product)
    ensures multiset(Insert(k, s, x)) == multiset(s) + multiset{x}
    decreases |s|
  {
    if s != [] && Compare(k, s[|s| - 1], x) > 0 {
      InsertPermutes(k, s[..|s| - 1], x);
      assert s == s[..|s| - 1] + [s[|s| - 1]];
    }
  }

  /** The sorted list holds the same products, each as often. */
  lemma {:induction false} SortPermutes(k: SortKey, s: seq<Product>)
    ensures multiset(Sort(k, s)) == multiset(s)
    decreases |s|
  {
    if s != [] {
      SortPermutes(k, s[..|s| - 1]);
      InsertPermutes(k, Sort(k, s[..|s| - 1]), s[|s| - 1]);
      assert s == s[..|s| - 1] + [s[|s| - 1]];
    }
  }

  lemma {:induction false} InsertSorted(k: SortKey, s: seq<Product>, x: Product)
    requires Sorted(k, s)
    ensures Sorted(k, Insert(k, s, x))
    decreases |s|
  {
    if s != [] {
      var init, last := s[..|s| - 1], s[|s| - 1];
      if Compare(k, last, x) > 0 {
        InsertSorted(k, init, x);
        var front := Insert(k, init, x);
        InsertPermutes(k, init, x);
        CompareFlip(k, last, x);
        forall i | 0 <= i < |front| ensures NotAfter(k, front[i], last) {
          assert front[i] in multiset(init) + multiset{x};
          if front[i] != x {
            assert front[i] in init;
            var m :| 0 <= m < |init| && init[m] == front[i];
            assert s[m] == front[i];
          }
        }
      } else {
        forall i | 0 <= i < |s| ensures NotAfter(k, s[i], x) {
          if i < |s| - 1 {
            CompareTransitive(k, s[i], last, x);
          }
        }
      }
    }
  }

  /** The sorted list is in order. */
  lemma {:induction false} SortSorted(k: SortKey, s: seq<Product>)
    ensures Sorted(k, Sort(k, s))
    decreases |s|
  {
    if s != [] {
      SortSorted(k, s[..|s| - 1]);
      InsertSorted(k, Sort(k, s[..|s| - 1]), s[|s| - 1]);
    }
  }

  /** A list already in order comes back unchanged. */
  lemma {:induction false} SortOfSortedIsIdentity(k: SortKey, s: seq<Product>)
    requires Sorted(k, s)
    ensures Sort(k, s) == s
    decreases |s|
  {
    if s != [] {
      var init := s[..|s| - 1];
      assert Sorted(k, init);
      SortOfSortedIsIdentity(k, init);
      if |init| > 0 {
        assert NotAfter(k, init[|init| - 1], s[|s| - 1]);
      }
      assert init + [s[|s| - 1]] == s;
    }
  }

  /** For a `sortBy` other than "name" and "price" every pair ties, so the sort keeps the order it was given. */
  lemma SortOtherKeyKeepsOrder(k: SortKey, s: seq<Product>)
    requires k.field != "name" && k.field != "price"
    ensures Sort(k, s) == s
  {
    SortOfSortedIsIdentity(k, s);
  }

  /**
   * What the order means for each key of ProductList.tsx: prices
   * non-decreasing or non-increasing, names in the name order or against it.
   */
  lemma SortOrderByKey(k: SortKey, s: seq<Product>)
    ensures var r := Sort(k, s);
            && (k == SortKey("price", Asc) ==> forall i, j :: 0 <= i < j < |r| ==> r[i].price <= r[j].price)
            && (k == SortKey("price", Desc) ==> forall i, j :: 0 <= i < j < |r| ==> r[i].price >= r[j].price)
            && (k == SortKey("name", Asc) ==> forall i, j :: 0 <= i < j < |r| ==> NameCmp(r[i].name, r[j].name) <= 0)
            && (k == SortKey("name", Desc) ==> forall i, j :: 0 <= i < j < |r| ==> NameCmp(r[j].name, r[i].name) <= 0)
  {
    SortSorted(k, s);
  }

  /** The elements of `s` that tie with `x` under the comparator, in their order in `s`. */
  function Ties(k: SortKey, s: seq<Product>, x: Product): seq<Product>
    decreases |s|
  {
    if s == [] then []
    else Ties(k, s[..|s| - 1], x) + (if Compare(k, s[|s| - 1], x) == 0 then [s[|s| - 1]] else [])
  }

  lemma {:induction false} TiesAppend(k: SortKey, a: seq<Product>, b: seq<Product>, x: Product)
    ensures Ties(k, a + b, x) == Ties(k, a, x) + Ties(k, b, x)
    decreases |b|
  {
    if b == [] {
      assert a + b == a;
    } else {
      var init := b[..|b| - 1];
      assert (a + b)[..|a + b| - 1] == a + init;
      assert (a + b)[|a + b| - 1] == b[|b| - 1];
      TiesAppend(k, a, init, x);
    }
  }

  /** Tying is an equivalence: two elements that tie with a third tie with each other. */
  lemma TieTransitive(k: SortKey, a: Product, b: Product, x: Product)
    requires Compare(k, a, x) == 0 && Compare(k, b, x) == 0
    ensures Compare(k, a, b) == 0
  {
  }

  lemma {:induction false} InsertStable(k: SortKey, s: seq<Product>, y: Product, x: Product)
    ensures Ties(k, Insert(k, s, y), x) == Ties(k, s, x) + Ties(k, [y], x)
    decreases |s|
  {
    assert Ties(k, [y], x) == Ties(k, [], x) + (if Compare(k, y, x) == 0 then [y] else []);
    if s == [] {
    } else {
      var init, last := s[..|s| - 1], s[|s| - 1];
      if Compare(k, last, y) > 0 {
        InsertStable(k, init, y, x);
        TiesAppend(k, Insert(k, init, y), [last], x);
        assert Ties(k, [last], x) == Ties(k, [], x) + (if Compare(k, last, x) == 0 then [last] else []);
        if Compare(k, last, x) == 0 && Compare(k, y, x) == 0 {
          TieTransitive(k, last, y, x);
        }
      } else {
        TiesAppend(k, s, [y], x);
      }
    }
  }

  /**
   * Stability: the products that tie with any `x` come out of the sort in
   * the order they went in.  Together with `SortSorted` and `SortPermutes`
   * this fixes the result of a stable sort uniquely.
   */
  lemma {:induction false} SortStable(k: SortKey, s: seq<Product>, x: Product)
    ensures Ties(k, Sort(k, s), x) == Ties(k, s, x)
    decreases |s|
  {
    if s != [] {
      var init, last := s[..|s| - 1], s[|s| - 1];
      SortStable(k, init, x);
      InsertStable(k, Sort(k, init), last, x);
      assert Ties(k, [last], x) == Ties(k, [], x) + (if Compare(k, last, x) == 0 then [last] else []);
    }
  }

  /** The list in the opposite order. */
  function Reverse(s: seq<Product>): (r: seq<Product>)
    ensures |r| == |s|
  {
    if s == [] then [] else [s[|s| - 1]] + Reverse(s[..|s| - 1])
  }

  lemma {:induction false} ReverseAt(s: seq<Product>, i: int)
    requires 0 <= i < |s|
    ensures Reverse(s)[i] == s[|s| - 1 - i]
  {
    if i > 0 {
      ReverseAt(s[..|s| - 1], i - 1);
    }
  }

  lemma {:induction false} ReversePermutes(s: seq<Product>)
    ensures multiset(Reverse(s)) == multiset(s)
  {
    if s != [] {
      ReversePermutes(s[..|s| - 1]);
      assert s == s[..|s| - 1] + [s[|s| - 1]];
    }
  }

  /** Reversing an ordered list puts every later element no later than every earlier one. */
  lemma ReverseOfSorted(k: SortKey, s: seq<Product>)
    requires Sorted(k, s)
    ensures forall i, j :: 0 <= i < j < |s| ==> NotAfter(k, Reverse(s)[j], Reverse(s)[i])
  {
    forall i, j | 0 <= i < j < |s| ensures NotAfter(k, Reverse(s)[j], Reverse(s)[i]) {
      ReverseAt(s, i);
      ReverseAt(s, j);
    }
  }

  lemma SortExtend(k: SortKey, s: seq<Product>, n: int)
    requires 0 <= n < |s|
    ensures Sort(k, s[..n + 1]) == Insert(k, Sort(k, s[..n]), s[n])
  {
    assert s[..n + 1][..n] == s[..n];
  }

  /** Midway through inserting `x` into `done`: it stands at `j` of `s`, and `s[..i + 1]` completes the insertion. */
  ghost predicate Inserting(k: SortKey, done: seq<Product>, x: Product, s: seq<Product>, j: int, i: int) {
    0 <= j <= i < |s| && s[j] == x && Insert(k, done, x) == Insert(k, s[..j], x) + s[j + 1..i + 1]
  }

  /** `s` with the elements at `j - 1` and `j` exchanged. */
  function Swapped(s: seq<Product>, j: int): seq<Product>
    requires 0 < j < |s|
  {
    s[j - 1 := s[j]][j := s[j - 1]]
  }

  lemma SwapStep(k: SortKey, done: seq<Product>, x: Product, s: seq<Product>, j: int, i: int)
    requires Inserting(k, done, x, s, j, i) && j > 0 && Compare(k, s[j - 1], s[j]) > 0
    ensures Inserting(k, done, x, Swapped(s, j), j - 1, i)
  {
    var t := Swapped(s, j);
    var front, y := s[..j - 1], s[j - 1];
    assert s[..j] == front + [y];
    assert (front + [y])[..|front|] == front;
    assert t[..j - 1] == front;
    assert t[j..i + 1] == [y] + s[j + 1..i + 1];
  }

  lemma InsertDone(k: SortKey, done: seq<Product>, x: Product, s: seq<Product>, j: int, i: int)
    requires Inserting(k, done, x, s, j, i) && (j == 0 || Compare(k, s[j - 1], s[j]) <= 0)
    ensures s[..i + 1] == Insert(k, done, x)
  {
  }

  /** One insertion step: moves `a[i]` left into the run `a[..i]`. */
  method InsertAt(a: array<Product>, i: int, k: SortKey)
    requires 0 <= i < a.Length
    modifies a
    ensures a[..i + 1] == Insert(k, old(a[..i]), old(a[i]))
    ensures forall m :: i < m < a.Length ==> a[m] == old(a[m])
  {
    ghost var done := a[..i];
    ghost var x := a[i];
    var j := i;
    assert a[..j] == done;
    while j > 0 && Compare(k, a[j - 1], a[j]) > 0
      invariant Inserting(k, done, x, a[..], j, i)
      invariant forall m :: i < m < a.Length ==> a[m] == old(a[m])
    {
      ghost var cur := a[..];
      SwapStep(k, done, x, cur, j, i);
      a[j - 1], a[j] := a[j], a[j - 1];
      assert a[..] == Swapped(cur, j);
      j := j - 1;
    }
    InsertDone(k, done, x, a[..], j, i);
  }

  /** `Array.prototype.sort` with the comparator for `k`, on the array itself. */
  method SortInPlace(a: array<Product>, k: SortKey)
    modifies a
    ensures a[..] == Sort(k, old(a[..]))
  {
    ghost var orig := a[..];
    var i := 0;
    while i < a.Length
      invariant 0 <= i <= a.Length
      invariant a[..i] == Sort(k, orig[..i])
      invariant a[i..] == orig[i..]
    {
      assert a[i] == orig[i];
      ghost var before := a[..];
      InsertAt(a, i, k);
      SortExtend(k, orig, i);
      assert a[i + 1..] == orig[i + 1..] by {
        assert before[i + 1..] == orig[i + 1..] by {
          assert before[i + 1..] == before[i..][1..] && orig[i + 1..] == orig[i..][1..];
        }
      }
      i := i + 1;
    }
    assert a[..] == a[..a.Length];
    assert orig == orig[..a.Length];
  }

  /** `Array.prototype.reverse`, on the array itself. */
  method ReverseInPlace(a: array<Product>)
    modifies a
    ensures a[..] == Reverse(old(a[..]))
  {
    ghost var orig := a[..];
    var lo, hi := 0, a.Length;
    while lo + 1 < hi
      invariant 0 <= lo <= hi <= a.Length && lo + hi == a.Length
      invariant forall m :: 0 <= m < lo ==> a[m] == orig[a.Length - 1 - m]
      invariant forall m :: hi <= m < a.Length ==> a[m] == orig[a.Length - 1 - m]
      invariant forall m :: lo <= m < hi ==> a[m] == orig[m]
    {
      a[lo], a[hi - 1] := a[hi - 1], a[lo];
      lo, hi := lo + 1, hi - 1;
    }
    forall m | 0 <= m < a.Length ensures a[m] == Reverse(orig)[m] {
      ReverseAt(orig, m);
    }
    assert a[..] == Reverse(orig);
  }

  /** `[...items]` sorted with the comparator for `k`: the input is left as it was. */
  method SortedCopy(items: seq<Product>, k: SortKey) returns (r: seq<Product>)
    ensures r == Sort(k, items)
    ensures multiset(r) == multiset(items)
    ensures Sorted(k, r)
  {
    var a := new Product[|items|](i requires 0 <= i < |items| => items[i]);
    assert a[..] == items;
    SortInPlace(a, k);
    r := a[..];
    SortSorted(k, items);
    SortPermutes(k, items);
  }
}
