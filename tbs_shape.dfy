/**
 * What the model relies on about a transport block size table (3GPP TS
 * 36.213 Table 7.1.7.2.1-1, one row per number of resource blocks, one
 * column per TBS index) and the size lookup over such a table. The stored
 * table itself, and the proof that it has this shape, are in `TbsTable`.
 */
module TbsShape {


  const NUM_NPRB := 110
  const NUM_ITBS := 27
  /** The largest entry of the table (NPRB = 110, ITBS = 26). */
  const MAX_TBS := 75376

  predicate NonDecreasing(r: seq<int>)
  {
    forall j :: 0 <= j < |r| - 1 ==> r[j] <= r[j + 1]
  }

  /** `r` lies entrywise below `s`. */
  predicate RowLe(r: seq<int>, s: seq<int>)
  {
    |r| == |s| && forall j :: 0 <= j < |r| ==> r[j] <= s[j]
  }

  /** What each row satisfies on its own. */
  predicate RowShape(r: seq<int>, nprb: int)
  {
    |r| == NUM_ITBS && NonDecreasing(r) && r[0] >= 16 * nprb && r[NUM_ITBS - 1] <= MAX_TBS
  }

  /**
   * What the rest of the model relies on about a transport block size
   * table: 110 rows of 27 entries, every row non-decreasing in the TBS
   * index and at least 16 bits per resource block, every entry at most
   * MAX_TBS, and every row entrywise below the next one.
   */
  ghost predicate WellShaped(t: seq<seq<int>>)
  {
    |t| == NUM_NPRB &&
    (forall k :: 0 <= k < NUM_NPRB ==> RowShapeAt(t, k)) &&
    (forall k :: 0 <= k < NUM_NPRB - 1 ==> RowLeAt(t, k))
  }

  /** Row k holds the sizes of k + 1 resource blocks. */
  predicate RowShapeAt(t: seq<seq<int>>, k: int)
    requires 0 <= k < |t|
  {
    RowShape(t[k], k + 1)
  }

  /**
   * Row k lies below row k + 1 (named, so that the fact about one row is
   * not instantiated for the next row in turn).
   */
  predicate RowLeAt(t: seq<seq<int>>, k: int)
    requires 0 <= k < |t| - 1
  {
    RowLe(t[k], t[k + 1])
  }

  lemma {:induction false} NonDecreasingBetween(r: seq<int>, i: int, j: int)
    requires NonDecreasing(r)
    requires 0 <= i <= j < |r|
    ensures r[i] <= r[j]
    decreases j - i
  {
    if i < j {
      NonDecreasingBetween(r, i, j - 1);
    }
  }

  lemma {:induction false} RowLeBetween(t: seq<seq<int>>, n: int, m: int)
    requires WellShaped(t)
    requires 1 <= n <= m <= NUM_NPRB
    ensures RowLe(t[n - 1], t[m - 1])
    decreases m - n
  {
    if n < m {
      RowLeBetween(t, n, m - 1);
      assert RowLeAt(t, m - 2);
    }
  }

  /** `t[nprb - 1][itbs]`: the number of bits `nprb` resource blocks carry at TBS index `itbs`. */
  function Tbs(t: seq<seq<int>>, nprb: int, itbs: int): (tbs: int)
    requires WellShaped(t)
    requires 1 <= nprb <= NUM_NPRB && 0 <= itbs < NUM_ITBS
    ensures 16 * nprb <= tbs <= MAX_TBS
  {
    assert RowShapeAt(t, nprb - 1);
    NonDecreasingBetween(t[nprb - 1], 0, itbs);
    NonDecreasingBetween(t[nprb - 1], itbs, NUM_ITBS - 1);
    t[nprb - 1][itbs]
  }

  /** A higher TBS index never carries fewer bits on the same allocation. */
  lemma TbsMonotoneInItbs(t: seq<seq<int>>, nprb: int, i: int, j: int)
    requires WellShaped(t)
    requires 1 <= nprb <= NUM_NPRB && 0 <= i <= j < NUM_ITBS
    ensures Tbs(t, nprb, i) <= Tbs(t, nprb, j)
  {
    assert RowShapeAt(t, nprb - 1);
    NonDecreasingBetween(t[nprb - 1], i, j);
  }

  /** More resource blocks never carry fewer bits at the same TBS index. */
  lemma TbsMonotoneInNprb(t: seq<seq<int>>, n: int, m: int, itbs: int)
    requires WellShaped(t)
    requires 1 <= n <= m <= NUM_NPRB && 0 <= itbs < NUM_ITBS
    ensures Tbs(t, n, itbs) <= Tbs(t, m, itbs)
  {
    RowLeBetween(t, n, m);
    assert RowShapeAt(t, n - 1);
    assert RowShapeAt(t, m - 1);
  }
}
