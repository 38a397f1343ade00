/**
 * Cell configuration helpers of the scheduler: the resource block group
 * size, the uplink sub-band size, the priority tables and ranges the
 * uplink queues use, and the per-TBS-index efficiency table.
 */
module SchedConfig {
  import opened TbsShape
  import opened SchedTables
  import Amc

  /** Values of `uint32_t` lie below U32. */
  const U32 := 0x1_0000_0000

  /** The TBS table has 27 rows, so the largest TBS index the efficiency table covers is 26. */
  const MAX_ITBS := 26

  /**
   * `utils::SCH_CEIL` (declared in a header that is not part of this
   * model), taken as the usual rounding-up division.
   */
  function SchCeil(x: int, d: int): (c: int)
    requires 0 <= x && 0 < d
    ensures 0 <= c && x <= c * d
    ensures x == 0 ==> c == 0
    ensures x > 0 ==> (c - 1) * d < x
  {
    (x + d - 1) / d
  }

  // ---------------------------------------------------------------------
  // Resource block group size
  // ---------------------------------------------------------------------

  /**
   * The RBG size of 3GPP TS 36.213 Table 7.1.6.1-1: 1 up to 10 resource
   * blocks, 2 up to 26, 3 up to 63, 4 up to 110; -1 marks a bandwidth
   * the table does not cover.
   */
  function StandardRbgSize(bw: int): int
  {
    if bw <= 10 then 1 else if bw <= 26 then 2 else if bw <= 63 then 3 else if bw <= 110 then 4 else -1
  }

  /**
   * `GetRbgSize` as written: the limits are compared with `<`, so each
   * limit itself already falls into the next size, and 110 resource
   * blocks, a valid LTE bandwidth, gets -1.
   */
  method GetRbgSizeAsWritten(bw: int) returns (size: int)
    ensures bw >= 110 ==> size == -1
    ensures bw < 110 && bw != 10 && bw != 26 && bw != 63 ==> size == StandardRbgSize(bw)
    ensures bw == 10 || bw == 26 || bw == 63 ==> size == StandardRbgSize(bw) + 1
  {
    var i := 0;
    while i < 4
      invariant 0 <= i <= 4
      invariant forall k :: 0 <= k < i ==> bw >= PfType0AllocationRbg[k]
    {
      if bw < PfType0AllocationRbg[i] {
        assert i == 0 || bw >= PfType0AllocationRbg[i - 1];
        return i + 1;
      }
      i := i + 1;
    }
    assert bw >= PfType0AllocationRbg[3];
    return -1;
  }

  /** `GetRbgSize` with the limits taken as inclusive, as the standard's table reads. */
  method GetRbgSize(bw: int) returns (size: int)
    ensures size == StandardRbgSize(bw)
  {
    var i := 0;
    while i < 4
      invariant 0 <= i <= 4
      invariant forall k :: 0 <= k < i ==> bw > PfType0AllocationRbg[k]
    {
      if bw <= PfType0AllocationRbg[i] {
        assert i == 0 || bw > PfType0AllocationRbg[i - 1];
        return i + 1;
      }
      i := i + 1;
    }
    assert bw > PfType0AllocationRbg[3];
    return -1;
  }

  /**
   * For every LTE bandwidth the RBG grid has between 1 and 27 groups, so
   * a group index fits the 32-bit resource allocation bitmap, and the
   * groups never cover more than the bandwidth.
   */
  lemma RbgGridFits(bw: int)
    requires 1 <= bw <= NUM_NPRB
    ensures var s := StandardRbgSize(bw);
      1 <= s <= 4 && 1 <= bw / s <= 27 && (bw / s) * s <= bw
  {
  }

  // ---------------------------------------------------------------------
  // Uplink sub-band size
  // ---------------------------------------------------------------------

  /** `SbsSize`, the number of resource blocks of an uplink sub-band, set at cell configuration. */
  function SubbandSize(ulBw: int): (sbs: int)
    ensures sbs == 0 <==> ulBw < 7
    ensures ulBw >= 7 ==> 2 <= sbs <= 4
  {
    if ulBw < 7 then 0 else if ulBw < 26 then 2 else if ulBw < 63 then 3 else 4
  }

  /**
   * A wider band never has smaller sub-bands, and for every bandwidth
   * from 7 to 110 resource blocks a sub-band is the standard's RBG size
   * or one resource block more.
   */
  lemma SubbandSizeMonotone(a: int, b: int)
    requires a <= b
    ensures SubbandSize(a) <= SubbandSize(b)
    ensures 7 <= a <= NUM_NPRB ==> StandardRbgSize(a) <= SubbandSize(a) <= StandardRbgSize(a) + 1
  {
  }

  // ---------------------------------------------------------------------
  // Priority tables
  // ---------------------------------------------------------------------

  predicate IsFillTblMax(src: seq<int>, start: nat, num: nat, m: int)
    requires start < |src| && start + num <= |src|
  {
    (m == src[start] || exists k :: start <= k < start + num && src[k] == m) &&
    src[start] <= m && forall k :: start <= k < start + num ==> src[k] <= m
  }

  /**
   * The minimum `FillTbl` reports: it starts from `src[start]` and then
   * only a smaller non-zero entry replaces it.
   */
  predicate IsFillTblMin(src: seq<int>, start: nat, num: nat, m: int)
    requires start < |src| && start + num <= |src|
  {
    (m == src[start] || exists k :: start <= k < start + num && src[k] == m && m != 0) &&
    m <= src[start] && forall k :: start <= k < start + num && src[k] != 0 ==> m <= src[k]
  }

  /** The smallest non-zero entry of the slice, or 0 when every entry is zero. */
  predicate IsSmallestNonZero(src: seq<int>, start: nat, num: nat, m: int)
    requires start + num <= |src|
  {
    if exists k :: start <= k < start + num && src[k] != 0 then
      (exists k :: start <= k < start + num && src[k] == m && m != 0) &&
      forall k :: start <= k < start + num && src[k] != 0 ==> m <= src[k]
    else m == 0
  }

  /**
   * `FillTbl` as written: appends `src[start..start + num]` to `dst` and
   * reports the largest entry and the minimum described by `IsFillTblMin`.
   */
  method FillTbl(src: seq<int>, dst: seq<int>, start: nat, num: nat) returns (out: seq<int>, min: int, max: int)
    requires start < |src| && start + num <= |src|
    ensures out == dst + src[start..start + num]
    ensures IsFillTblMin(src, start, num, min)
    ensures IsFillTblMax(src, start, num, max)
  {
    out := dst;
    min, max := src[start], src[start];
    var i := start;
    while i < start + num
      invariant start <= i <= start + num
      invariant out == dst + src[start..i]
      invariant IsFillTblMin(src, start, i - start, min)
      invariant IsFillTblMax(src, start, i - start, max)
    {
      var v := src[i];
      if v < min && v != 0 {
        min := v;
      }
      if v > max {
        max := v;
      }
      out := out + [v];
      assert src[start..i + 1] == src[start..i] + [v];
      i := i + 1;
    }
  }

  /**
   * The non-GBR QCI priorities start with a zero entry (QCI 5), so the
   * minimum `FillTbl` reports for them is 0 although every other entry of
   * the slice is non-zero and the smallest of them is 1.
   */
  lemma FillTblNonGbrMinimumIsZero(m: int)
    requires IsFillTblMin(Qciprio, NGBR_QCI_START - 1, NGBR_QCI_END - NGBR_QCI_START + 1, m)
    ensures m == 0
    ensures Qciprio[NGBR_QCI_START - 1..NGBR_QCI_END] == [0, 4, 3, 2, 1]
  {
  }

  /** `FillTbl` with the minimum taken over the non-zero entries only, as the zero test intends. */
  method FillTblNonZeroMin(src: seq<int>, dst: seq<int>, start: nat, num: nat) returns (out: seq<int>, min: int, max: int)
    requires start < |src| && start + num <= |src|
    ensures out == dst + src[start..start + num]
    ensures IsSmallestNonZero(src, start, num, min)
    ensures IsFillTblMax(src, start, num, max)
  {
    out := dst;
    min, max := 0, src[start];
    var i := start;
    while i < start + num
      invariant start <= i <= start + num
      invariant out == dst + src[start..i]
      invariant IsSmallestNonZero(src, start, i - start, min)
      invariant IsFillTblMax(src, start, i - start, max)
    {
      var v := src[i];
      if v != 0 && (min == 0 || v < min) {
        min := v;
      }
      if v > max {
        max := v;
      }
      out := out + [v];
      assert src[start..i + 1] == src[start..i] + [v];
      i := i + 1;
    }
  }

  /** With the intended minimum, the non-GBR QCI priorities range from 1 to 4. */
  lemma FillTblNonZeroMinNonGbr(m: int, x: int)
    requires IsSmallestNonZero(Qciprio, NGBR_QCI_START - 1, NGBR_QCI_END - NGBR_QCI_START + 1, m)
    requires IsFillTblMax(Qciprio, NGBR_QCI_START - 1, NGBR_QCI_END - NGBR_QCI_START + 1, x)
    ensures m == 1 && x == 4
  {
    assert Qciprio[8] == 1 && Qciprio[5] == 4;
  }

  // ---------------------------------------------------------------------
  // Priority ranges and queue indices
  // ---------------------------------------------------------------------

  /** `PfsPrioRange`: the priorities one family of queues covers. */
  datatype PfsPrioRange = PfsPrioRange(min: int, max: int, maxDiff: int, numQueues: int)

  /**
   * `FillRangeQueues`: the minimum passes through a `uint8_t` parameter,
   * and the width `max - min + 1` is computed in `uint32_t`.
   */
  function FillRangeQueues(minprio: int, maxprio: int, numQs: int): (r: PfsPrioRange)
    requires 0 <= minprio < U32 && 0 <= maxprio < U32
    ensures 0 <= r.min < 256 && (minprio < 256 ==> r.min == minprio)
    ensures r.max == maxprio && r.numQueues == numQs
    ensures 0 <= r.maxDiff < U32
    ensures r.min <= maxprio < U32 - 1 ==> r.maxDiff == maxprio - r.min + 1
    ensures r.min <= maxprio ==> (r.maxDiff == 0 <==> r.min == 0 && maxprio == U32 - 1)
    ensures maxprio + 1 < r.min ==> r.maxDiff == U32 + maxprio - r.min + 1
  {
    var m := minprio % 256;
    PfsPrioRange(m, maxprio, (maxprio - m + 1) % U32, numQs)
  }

  /** `UlGetQid`: `((prio - min) * NumQueus) / maxDiff` in `uint32_t`, returned as `uint8_t`. */
  function UlGetQid(prio: int, range: PfsPrioRange): int
    requires range.maxDiff > 0
  {
    ((((prio - range.min) % U32) * range.numQueues) % U32 / range.maxDiff) % 256
  }

  /**
   * A priority inside a range built by `FillRangeQueues` selects one of
   * the range's queues, and a higher priority never a lower queue.
   */
  lemma UlGetQidInRange(minprio: int, maxprio: int, numQs: int, p: int, q: int)
    requires 0 <= minprio < 256 && minprio <= p <= q <= maxprio < 0x100_0000 && 0 < numQs < 256
    ensures var r := FillRangeQueues(minprio, maxprio, numQs);
      r.maxDiff > 0 && 0 <= UlGetQid(p, r) <= UlGetQid(q, r) < numQs
  {
    var r := FillRangeQueues(minprio, maxprio, numQs);
    var d := maxprio - minprio + 1;
    assert r.min == minprio && r.maxDiff == d;
    QueueIndexBounds(p - minprio, q - minprio, numQs, d);
    assert UlGetQid(p, r) == ((p - minprio) * numQs) / d by {
      assert (p - minprio) % U32 == p - minprio;
      assert ((p - minprio) * numQs) % U32 == (p - minprio) * numQs;
    }
    assert UlGetQid(q, r) == ((q - minprio) * numQs) / d by {
      assert (q - minprio) % U32 == q - minprio;
      assert ((q - minprio) * numQs) % U32 == (q - minprio) * numQs;
    }
  }

  lemma QueueIndexBounds(a: int, b: int, n: int, d: int)
    requires 0 <= a <= b < d <= 0x100_0000 && 0 < n < 256
    ensures 0 <= a * n < U32 && 0 <= b * n < U32
    ensures 0 <= (a * n) / d <= (b * n) / d < n
  {
    Amc.MulMono(a, b, n);
    Amc.MulMono(b, d, n);
    Amc.MulMono(d, 0x100_0000, n);
    Amc.DivMonotone(a * n, b * n, d);
    assert b * n < d * n by {
      Amc.MulMono(b + 1, d, n);
    }
    DivBelow(b * n, n, d);
  }

  lemma DivBelow(x: int, n: int, d: int)
    requires 0 < d && 0 <= x < n * d
    ensures x / d < n
  {
    var q := x / d;
    assert q * d <= x;
    if q >= n {
      Amc.MulMono(n, q, d);
    }
  }

  /** `UlGetQIdNew`, the queue index of the round-robin-like configuration: the range is ignored. */
  function UlGetQIdNew(prio: int, range: PfsPrioRange): (qid: int)
    requires 0 <= prio
    ensures 0 <= qid < 128
    ensures prio < 128 ==> qid == prio
    ensures qid == UlGetQIdNew(prio % 128, range)
  {
    prio % 128
  }

  // ---------------------------------------------------------------------
  // Efficiency per TBS index
  // ---------------------------------------------------------------------

  /** The sum `CalcEffTbl` accumulates over the first `n` resource-block counts of row `itbs`. */
  function EffSum(t: seq<seq<int>>, rePerRb: int, itbs: int, n: int): int
    requires WellShaped(t) && rePerRb > 0 && 0 <= itbs < NUM_ITBS && 0 <= n <= NUM_NPRB
  {
    if n == 0 then 0
    else EffSum(t, rePerRb, itbs, n - 1) + (SchedTbSize(t, itbs, n) * 1024) / (rePerRb * n)
  }

  /** `TbSzEff[itbs]`: bits per 1024 resource elements, averaged over the 110 allocation sizes. */
  function TbSzEff(t: seq<seq<int>>, rePerRb: int, itbs: int): int
    requires WellShaped(t) && rePerRb > 0 && 0 <= itbs < NUM_ITBS
  {
    EffSum(t, rePerRb, itbs, NUM_NPRB) / NUM_NPRB
  }

  lemma EffTermBounds(t1: int, t2: int, rePerRb: int, n: int)
    requires 0 < rePerRb <= 168 && 1 <= n && 16 * n <= t1 <= t2
    ensures 97 <= (t1 * 1024) / (rePerRb * n) <= (t2 * 1024) / (rePerRb * n)
  {
    assert 97 * (rePerRb * n) <= 97 * (168 * n) by {
      Amc.MulMono(rePerRb * n, 168 * n, 97);
    }
    assert 16 * n * 1024 <= t1 * 1024;
    Amc.DivAtLeast(t1 * 1024, 97, rePerRb * n);
    Amc.DivMonotone(t1 * 1024, t2 * 1024, rePerRb * n);
  }

  lemma {:induction false} EffSumBounds(t: seq<seq<int>>, rePerRb: int, i: int, j: int, n: int)
    requires WellShaped(t) && 0 < rePerRb <= 168 && 0 <= i <= j < NUM_ITBS && 0 <= n <= NUM_NPRB
    ensures 97 * n <= EffSum(t, rePerRb, i, n) <= EffSum(t, rePerRb, j, n)
  {
    if n > 0 {
      EffSumBounds(t, rePerRb, i, j, n - 1);
      SchedTbSizeMonotone(t, i, j, n, n);
      EffTermBounds(SchedTbSize(t, i, n), SchedTbSize(t, j, n), rePerRb, n);
    }
  }

  /**
   * Every efficiency is positive (at least 97, so the divisions by it in
   * the sub-band and resource-block sizing are defined) and a higher TBS
   * index never has a lower efficiency, for any 1..14 resource elements
   * per symbol pair.
   */
  lemma TbSzEffMonotone(t: seq<seq<int>>, rePerRb: int, i: int, j: int)
    requires WellShaped(t) && 0 < rePerRb <= 168 && 0 <= i <= j < NUM_ITBS
    ensures 97 <= TbSzEff(t, rePerRb, i) <= TbSzEff(t, rePerRb, j)
  {
    EffSumBounds(t, rePerRb, i, j, NUM_NPRB);
    Amc.DivAtLeast(EffSum(t, rePerRb, i, NUM_NPRB), 97, NUM_NPRB);
    Amc.DivMonotone(EffSum(t, rePerRb, i, NUM_NPRB), EffSum(t, rePerRb, j, NUM_NPRB), NUM_NPRB);
  }

  /**
   * The sum `CalcEffTbl` accumulates from the scheduler's table as
   * declared, whose entry for TBS index 6 and one resource block is 328.
   */
  function EffSumAsWritten(t: seq<seq<int>>, rePerRb: int, itbs: int, n: int): int
    requires WellShaped(t) && rePerRb > 0 && 0 <= itbs < NUM_ITBS && 0 <= n <= NUM_NPRB
  {
    if n == 0 then 0
    else EffSumAsWritten(t, rePerRb, itbs, n - 1) + (SchedTbSizeAsWritten(t, itbs, n) * 1024) / (rePerRb * n)
  }

  /** `TbSzEff[itbs]` as `CalcEffTbl` computes it from the table as declared. */
  function TbSzEffAsWritten(t: seq<seq<int>>, rePerRb: int, itbs: int): int
    requires WellShaped(t) && rePerRb > 0 && 0 <= itbs < NUM_ITBS
  {
    EffSumAsWritten(t, rePerRb, itbs, NUM_NPRB) / NUM_NPRB
  }

  /**
   * The sum from the table as declared differs from the intended one only
   * in row 6, and there it is no smaller when the intended entry is at
   * most 328; every term still gives at least 97.
   */
  lemma {:induction false} EffSumAsWrittenAgrees(t: seq<seq<int>>, rePerRb: int, i: int, n: int)
    requires WellShaped(t) && 0 < rePerRb <= 168 && 0 <= i < NUM_ITBS && 0 <= n <= NUM_NPRB
    ensures 97 * n <= EffSumAsWritten(t, rePerRb, i, n)
    ensures i != 6 ==> EffSumAsWritten(t, rePerRb, i, n) == EffSum(t, rePerRb, i, n)
    ensures Tbs(t, 1, 6) <= 328 ==> EffSum(t, rePerRb, i, n) <= EffSumAsWritten(t, rePerRb, i, n)
  {
    if n > 0 {
      EffSumAsWrittenAgrees(t, rePerRb, i, n - 1);
      var w := SchedTbSizeAsWritten(t, i, n);
      var c := SchedTbSize(t, i, n);
      if i == 6 && n == 1 {
        EffTermBounds(16, w, rePerRb, n);
        if c <= 328 {
          EffTermBounds(c, w, rePerRb, n);
        }
      } else {
        EffTermBounds(c, w, rePerRb, n);
      }
    }
  }

  /**
   * What `CalcEffTbl` leaves: every efficiency is at least 97 (so the
   * divisions by it in the sub-band and resource-block sizing are
   * defined); outside row 6 it is the efficiency of the intended table,
   * which never falls with the TBS index; and in row 6 it is no lower
   * than the intended one.
   */
  lemma TbSzEffAsWrittenSpec(t: seq<seq<int>>, rePerRb: int, i: int)
    requires WellShaped(t) && 0 < rePerRb <= 168 && 0 <= i < NUM_ITBS
    ensures 97 <= TbSzEffAsWritten(t, rePerRb, i)
    ensures i != 6 ==> TbSzEffAsWritten(t, rePerRb, i) == TbSzEff(t, rePerRb, i)
    ensures Tbs(t, 1, 6) <= 328 ==> TbSzEff(t, rePerRb, i) <= TbSzEffAsWritten(t, rePerRb, i)
  {
    EffSumAsWrittenAgrees(t, rePerRb, i, NUM_NPRB);
    Amc.DivAtLeast(EffSumAsWritten(t, rePerRb, i, NUM_NPRB), 97, NUM_NPRB);
    EffSumBounds(t, rePerRb, i, i, NUM_NPRB);
    if Tbs(t, 1, 6) <= 328 {
      Amc.DivMonotone(EffSum(t, rePerRb, i, NUM_NPRB), EffSumAsWritten(t, rePerRb, i, NUM_NPRB), NUM_NPRB);
    }
  }

  /** `CalcEffTbl`: fills `TbSzEff[0..MAX_ITBS]` from the scheduler's table as declared. */
  method CalcEffTbl(t: seq<seq<int>>, rePerRb: int, eff: array<int>)
    requires WellShaped(t) && rePerRb > 0 && eff.Length == MAX_ITBS + 1
    modifies eff
    ensures forall i :: 0 <= i <= MAX_ITBS ==> eff[i] == TbSzEffAsWritten(t, rePerRb, i)
  {
    var i := 0;
    while i < MAX_ITBS + 1
      invariant 0 <= i <= MAX_ITBS + 1
      invariant forall k :: 0 <= k < i ==> eff[k] == TbSzEffAsWritten(t, rePerRb, k)
    {
      eff[i] := 0;
      var j := 0;
      while j < NUM_NPRB
        invariant 0 <= j <= NUM_NPRB
        invariant eff[i] == EffSumAsWritten(t, rePerRb, i, j)
        invariant forall k :: 0 <= k < i ==> eff[k] == TbSzEffAsWritten(t, rePerRb, k)
      {
        eff[i] := eff[i] + (SchedTbSizeAsWritten(t, i, j + 1) * 1024) / (rePerRb * (j + 1));
        j := j + 1;
      }
      eff[i] := eff[i] / NUM_NPRB;
      i := i + 1;
    }
  }
}
