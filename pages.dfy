/** Page arithmetic: `Math.ceil(total / limit)` on integers. */
module Pages {

  /** The number of rows on one page in both list views. */
  const Limit: int := 8

  /** `Math.ceil(t / d)` for an integer `t` and a positive integer `d`. */
  function CeilDiv(t: int, d: int): (k: int)
    requires d > 0
    ensures (k - 1) * d < t <= k * d
  {
    var q := (-t) / d;
    assert -t == q * d + (-t) % d;
    -q
  }

  /** The ceiling is the least number of whole pages that hold `t` rows. */
  lemma CeilDivIsLeast(t: int, d: int, m: int)
    requires d > 0 && t <= m * d
    ensures CeilDiv(t, d) <= m
  {
  }

  /** An empty list has no pages; a non-empty one has at least one. */
  lemma CeilDivCounts(t: int, d: int)
    requires d > 0
    ensures t == 0 ==> CeilDiv(t, d) == 0
    ensures t > 0 ==> CeilDiv(t, d) >= 1
  {
  }
}
