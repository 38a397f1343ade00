/**
 * Adaptive modulation and coding (`LteAmc`): the CQI, MCS and TBS index
 * tables, the linear-scan lookups between them, the transport block size
 * getters, and the builders that fill the uplink mapping tables when the
 * object is created.
 *
 * Spectral efficiencies have exactly two decimals in the source and are
 * kept here as integers in hundredths; comparisons are unchanged by that.
 */
module Amc {
  import opened TbsShape

  type CqiIndex = x: int | 0 <= x <= 15
  type McsIndex = x: int | 0 <= x <= 28
  type ItbsIndex = x: int | 0 <= x < 27

  /** Spectral efficiency of each CQI, in hundredths of bit/s/Hz (R1-081483). */
  const SpectralEfficiencyForCqi: seq<int> :=
    [0, 15, 23, 38, 60, 88, 118, 148, 191, 241, 273, 332, 390, 452, 512, 555]

  /** Spectral efficiency of each MCS, in hundredths; indices 29-31 are reserved. */
  const SpectralEfficiencyForMcs: seq<int> :=
    [15, 19, 23, 31, 38, 49, 60, 74, 88, 103, 118, 133, 148, 170, 191, 216, 241, 257,
     273, 303, 332, 361, 390, 421, 452, 482, 512, 533, 555, 0, 0, 0]

  /** 3GPP TS 36.213 Table 7.1.7.1-1 (PDSCH). */
  const McsToItbsDl: seq<ItbsIndex> :=
    [0, 1, 2, 3, 4, 5, 6, 7, 8, 9, 9, 10, 11, 12, 13, 14, 15, 15, 16, 17, 18,
     19, 20, 21, 22, 23, 24, 25, 26]

  /** 3GPP TS 36.213 Table 8.6.1-1 (PUSCH). */
  const McsToItbsUl: seq<ItbsIndex> :=
    [0, 1, 2, 3, 4, 5, 6, 7, 8, 9, 10, 10, 11, 12, 13, 14, 15, 16, 17, 18,
     19, 19, 20, 21, 22, 23, 24, 25, 26]

  /** Uplink efficiency per CQI, in bits per 1024 resource elements. */
  const Eff: seq<int> :=
    [0, 156, 240, 386, 616, 898, 1204, 1512, 1960, 2464, 3402, 3800, 4102, 4342, 5238, 5728]

  /** Resource elements per resource block that `CompUlEff` assumes. */
  const NO_RES_PER_RB := 144

  /** The spectral efficiency a table entry in hundredths stands for. */
  function SeValue(x100: int): real
  {
    x100 as real / 100.0
  }

  lemma SpectralEfficiencyForCqiIncreasing()
    ensures forall c :: 0 <= c < 15 ==> SpectralEfficiencyForCqi[c] < SpectralEfficiencyForCqi[c + 1]
    ensures NonDecreasing(SpectralEfficiencyForCqi)
  {
  }

  lemma SpectralEfficiencyForMcsIncreasing()
    ensures forall m :: 0 <= m < 28 ==> SpectralEfficiencyForMcs[m] < SpectralEfficiencyForMcs[m + 1]
  {
  }

  lemma McsToItbsNonDecreasing()
    ensures NonDecreasing(McsToItbsDl) && NonDecreasing(McsToItbsUl)
  {
  }

  // ---------------------------------------------------------------------
  // CQI from spectral efficiency
  // ---------------------------------------------------------------------

  /** The scan of `GetCqiFromSpectralEfficiency`, continued from `c`. */
  function CqiScan(s: real, c: CqiIndex): (r: CqiIndex)
    ensures c <= r
    decreases 15 - c
  {
    if c < 15 && SeValue(SpectralEfficiencyForCqi[c + 1]) < s then CqiScan(s, c + 1) else c
  }

  function CqiFromSpectralEfficiency(s: real): CqiIndex
  {
    CqiScan(s, 0)
  }

  /** `GetCqiFromSpectralEfficiency`: the first CQI whose successor is not below `s`. */
  method GetCqiFromSpectralEfficiency(s: real) returns (cqi: CqiIndex)
    requires s >= 0.0
    ensures cqi == CqiFromSpectralEfficiency(s)
  {
    cqi := 0;
    while cqi < 15 && SeValue(SpectralEfficiencyForCqi[cqi + 1]) < s
      invariant CqiScan(s, cqi) == CqiScan(s, 0)
      decreases 15 - cqi
    {
      cqi := cqi + 1;
    }
  }

  lemma {:induction false} CqiScanFacts(s: real, c: CqiIndex)
    requires c > 0 ==> SeValue(SpectralEfficiencyForCqi[c]) < s
    ensures CqiScan(s, c) < 15 ==> s <= SeValue(SpectralEfficiencyForCqi[CqiScan(s, c) + 1])
    ensures CqiScan(s, c) > 0 ==> SeValue(SpectralEfficiencyForCqi[CqiScan(s, c)]) < s
    decreases 15 - c
  {
    if c < 15 && SeValue(SpectralEfficiencyForCqi[c + 1]) < s {
      CqiScanFacts(s, c + 1);
    }
  }

  /**
   * The CQI picked for `s` is the highest one whose efficiency is below
   * `s`: its successor (if any) is at least `s`, and it is below `s`
   * itself unless it is CQI 0.
   */
  lemma CqiFromSpectralEfficiencyCorrect(s: real)
    ensures var cqi := CqiFromSpectralEfficiency(s);
      (cqi < 15 ==> s <= SeValue(SpectralEfficiencyForCqi[cqi + 1])) &&
      (cqi > 0 ==> SeValue(SpectralEfficiencyForCqi[cqi]) < s)
  {
    CqiScanFacts(s, 0);
  }

  lemma {:induction false} CqiScanMonotone(s1: real, s2: real, c: CqiIndex)
    requires s1 <= s2
    ensures CqiScan(s1, c) <= CqiScan(s2, c)
    decreases 15 - c
  {
    if c < 15 && SeValue(SpectralEfficiencyForCqi[c + 1]) < s1 {
      CqiScanMonotone(s1, s2, c + 1);
    }
  }

  /** A higher spectral efficiency never yields a lower CQI. */
  lemma CqiFromSpectralEfficiencyMonotone(s1: real, s2: real)
    requires s1 <= s2
    ensures CqiFromSpectralEfficiency(s1) <= CqiFromSpectralEfficiency(s2)
  {
    CqiScanMonotone(s1, s2, 0);
  }

  // ---------------------------------------------------------------------
  // MCS from CQI
  // ---------------------------------------------------------------------

  /**
   * The scan of `GetMcsFromCqi` over a table `se` of MCS efficiencies,
   * for the efficiency `x`, continued from `m`.
   */
  function McsScan(se: seq<int>, x: int, m: McsIndex): (r: McsIndex)
    requires |se| == 32
    ensures m <= r
    decreases 28 - m
  {
    if m < 28 && se[m + 1] <= x then McsScan(se, x, m + 1) else m
  }

  function McsFromCqi(cqi: CqiIndex): McsIndex
  {
    McsScan(SpectralEfficiencyForMcs, SpectralEfficiencyForCqi[cqi], 0)
  }

  /** `GetMcsFromCqi`: the last MCS whose efficiency does not exceed the CQI's. */
  method GetMcsFromCqi(cqi: int) returns (mcs: McsIndex)
    requires 0 <= cqi <= 15
    ensures mcs == McsFromCqi(cqi)
  {
    var spectralEfficiency := SpectralEfficiencyForCqi[cqi];
    mcs := 0;
    while mcs < 28 && SpectralEfficiencyForMcs[mcs + 1] <= spectralEfficiency
      invariant McsScan(SpectralEfficiencyForMcs, spectralEfficiency, mcs) == McsFromCqi(cqi)
      decreases 28 - mcs
    {
      mcs := mcs + 1;
    }
  }

  lemma {:induction false} McsScanFacts(se: seq<int>, x: int, m: McsIndex)
    requires |se| == 32
    requires m > 0 ==> se[m] <= x
    ensures McsScan(se, x, m) > 0 ==> se[McsScan(se, x, m)] <= x
    ensures McsScan(se, x, m) < 28 ==> x < se[McsScan(se, x, m) + 1]
    decreases 28 - m
  {
    if m < 28 && se[m + 1] <= x {
      McsScanFacts(se, x, m + 1);
    }
  }

  /**
   * The MCS chosen for a CQI never promises more spectral efficiency than
   * the CQI reports, and the next MCS would.
   */
  lemma McsFromCqiCorrect(cqi: CqiIndex)
    ensures var mcs := McsFromCqi(cqi);
      (mcs > 0 ==> SpectralEfficiencyForMcs[mcs] <= SpectralEfficiencyForCqi[cqi]) &&
      (mcs < 28 ==> SpectralEfficiencyForCqi[cqi] < SpectralEfficiencyForMcs[mcs + 1])
  {
    McsScanFacts(SpectralEfficiencyForMcs, SpectralEfficiencyForCqi[cqi], 0);
  }

  /** The valid MCS efficiencies lie between CQI 1's and CQI 15's. */
  lemma SpectralEfficiencyForMcsRange()
    ensures forall m :: 0 <= m <= 28 ==> 15 <= SpectralEfficiencyForMcs[m] <= 555
  {
  }

  /** CQI 0 maps to MCS 0 and CQI 15 to MCS 28. */
  lemma McsFromCqiEnds()
    ensures McsFromCqi(0) == 0
    ensures McsFromCqi(15) == 28
  {
    SpectralEfficiencyForMcsRange();
    McsFromCqiCorrect(0);
    McsFromCqiCorrect(15);
  }

  lemma {:induction false} McsScanMonotone(se: seq<int>, x1: int, x2: int, m: McsIndex)
    requires |se| == 32 && x1 <= x2
    ensures McsScan(se, x1, m) <= McsScan(se, x2, m)
    decreases 28 - m
  {
    if m < 28 && se[m + 1] <= x1 {
      McsScanMonotone(se, x1, x2, m + 1);
    }
  }

  /** A higher CQI never yields a lower MCS. */
  lemma McsFromCqiMonotone(c1: CqiIndex, c2: CqiIndex)
    requires c1 <= c2
    ensures McsFromCqi(c1) <= McsFromCqi(c2)
  {
    SpectralEfficiencyForCqiIncreasing();
    NonDecreasingBetween(SpectralEfficiencyForCqi, c1, c2);
    McsScanMonotone(SpectralEfficiencyForMcs, SpectralEfficiencyForCqi[c1], SpectralEfficiencyForCqi[c2], 0);
  }

  // ---------------------------------------------------------------------
  // Transport block size getters
  // ---------------------------------------------------------------------

  /**
   * `GetDlTbSizeFromMcs`: the entry of the transport block size table `t`
   * for `nprb` resource blocks at the PDSCH TBS index of `mcs`.
   */
  function GetDlTbSizeFromMcs(t: seq<seq<int>>, mcs: int, nprb: int): (tbs: int)
    requires WellShaped(t)
    requires 0 <= mcs < 29 && 1 <= nprb <= NUM_NPRB
    ensures 16 * nprb <= tbs <= MAX_TBS
  {
    Tbs(t, nprb, McsToItbsDl[mcs])
  }

  /** `GetUlTbSizeFromItbs`. */
  function GetUlTbSizeFromItbs(t: seq<seq<int>>, itbs: int, nprb: int): (tbs: int)
    requires WellShaped(t)
    requires 0 <= itbs < NUM_ITBS && 1 <= nprb <= NUM_NPRB
    ensures 16 * nprb <= tbs <= MAX_TBS
  {
    Tbs(t, nprb, itbs)
  }

  /** `GetUlTbSizeFromMcs`: the entry for the PUSCH TBS index of `mcs`. */
  function GetUlTbSizeFromMcs(t: seq<seq<int>>, mcs: int, nprb: int): (tbs: int)
    requires WellShaped(t)
    requires 0 <= mcs < 29 && 1 <= nprb <= NUM_NPRB
    ensures tbs == GetUlTbSizeFromItbs(t, GetItbsFromMcsUl(mcs), nprb)
    ensures 16 * nprb <= tbs <= MAX_TBS
  {
    Tbs(t, nprb, McsToItbsUl[mcs])
  }

  /** A higher MCS, or more resource blocks, never carries fewer bits, in either direction. */
  lemma TbSizeMonotone(t: seq<seq<int>>, m1: int, m2: int, n1: int, n2: int)
    requires WellShaped(t)
    requires 0 <= m1 <= m2 < 29 && 1 <= n1 <= n2 <= NUM_NPRB
    ensures GetDlTbSizeFromMcs(t, m1, n1) <= GetDlTbSizeFromMcs(t, m2, n2)
    ensures GetUlTbSizeFromMcs(t, m1, n1) <= GetUlTbSizeFromMcs(t, m2, n2)
  {
    McsToItbsNonDecreasing();
    NonDecreasingBetween(McsToItbsDl, m1, m2);
    NonDecreasingBetween(McsToItbsUl, m1, m2);
    TbsMonotoneInItbs(t, n1, McsToItbsDl[m1], McsToItbsDl[m2]);
    TbsMonotoneInItbs(t, n1, McsToItbsUl[m1], McsToItbsUl[m2]);
    TbsMonotoneInNprb(t, n1, n2, McsToItbsDl[m2]);
    TbsMonotoneInNprb(t, n1, n2, McsToItbsUl[m2]);
  }

  /** `GetSpectralEfficiencyFromCqi`, in hundredths. */
  function GetSpectralEfficiencyFromCqi(cqi: int): (se: int)
    requires 0 <= cqi <= 15
    ensures 0 <= se <= 555
    ensures cqi > 0 ==> se > 0
  {
    SpectralEfficiencyForCqi[cqi]
  }

  /** `GetItbsFromMcsUl`. */
  function GetItbsFromMcsUl(mcs: int): (itbs: int)
    requires 0 <= mcs < 29
    ensures mcs <= 10 ==> itbs == mcs
    ensures mcs > 10 ==> mcs - 2 <= itbs <= mcs - 1
  {
    McsToItbsUl[mcs]
  }

  // ---------------------------------------------------------------------
  // Uplink MCS and resource-block choice for a transport block
  // ---------------------------------------------------------------------

  datatype McsPrbInfo = McsPrbInfo(mcs: int, nbRb: int, tbs: int)

  /** Some MCS up to `maxMcs` carries `tbs` bits on `nprb` resource blocks. */
  ghost predicate SomeMcsFits(t: seq<seq<int>>, tbs: int, nprb: int, maxMcs: int)
    requires WellShaped(t) && 1 <= nprb <= NUM_NPRB && maxMcs < 29
  {
    exists m :: 0 <= m <= maxMcs && GetUlTbSizeFromMcs(t, m, nprb) >= tbs
  }

  /**
   * `e` offers `e.nbRb` resource blocks at the smallest MCS up to `maxMcs`
   * whose transport block holds `tbs` bits, and `e.tbs` is that block's size.
   */
  ghost predicate SmallestFit(t: seq<seq<int>>, e: McsPrbInfo, tbs: int, maxMcs: int)
  {
    WellShaped(t) && 1 <= e.nbRb <= NUM_NPRB && 0 <= e.mcs <= maxMcs && maxMcs < 29 &&
    e.tbs == GetUlTbSizeFromMcs(t, e.mcs, e.nbRb) && e.tbs >= tbs &&
    forall m :: 0 <= m < e.mcs ==> GetUlTbSizeFromMcs(t, m, e.nbRb) < tbs
  }

  /** Some entry of `v` is for `nprb` resource blocks. */
  predicate Offers(v: seq<McsPrbInfo>, nprb: int)
  {
    exists k :: 0 <= k < |v| && v[k].nbRb == nprb
  }

  /** The inner loop of `GetUlMcsNprbInfoFromTbs`: the first MCS that fits, if any. */
  method FirstFittingMcs(t: seq<seq<int>>, tbs: int, nprb: int, maxMcs: int) returns (found: bool, e: McsPrbInfo)
    requires WellShaped(t) && 1 <= nprb <= NUM_NPRB && maxMcs < 29
    ensures found ==> SmallestFit(t, e, tbs, maxMcs) && e.nbRb == nprb
    ensures !found <==> !SomeMcsFits(t, tbs, nprb, maxMcs)
  {
    var mcs := 0;
    found := false;
    e := McsPrbInfo(0, nprb, 0);
    while mcs <= maxMcs
      invariant 0 <= mcs && (mcs <= maxMcs + 1 || mcs == 0)
      invariant forall m :: 0 <= m < mcs ==> GetUlTbSizeFromMcs(t, m, nprb) < tbs
    {
      var grantTbs := GetUlTbSizeFromMcs(t, mcs, nprb);
      if grantTbs >= tbs {
        e := McsPrbInfo(mcs, nprb, grantTbs);
        found := true;
        return;
      }
      mcs := mcs + 1;
    }
  }

  /**
   * `GetUlMcsNprbInfoFromTbs`: for every number of resource blocks up to
   * `maxNprb` that some MCS up to `maxMcs` can fill with `tbs` bits, one
   * entry with the smallest such MCS, in increasing order of resource blocks.
   */
  method GetUlMcsNprbInfoFromTbs(t: seq<seq<int>>, tbs: int, maxNprb: int, maxMcs: int) returns (v: seq<McsPrbInfo>)
    requires WellShaped(t) && maxNprb <= NUM_NPRB && maxMcs < 29
    ensures forall k :: 0 <= k < |v| ==> SmallestFit(t, v[k], tbs, maxMcs) && v[k].nbRb <= maxNprb
    ensures forall k :: 0 <= k < |v| - 1 ==> v[k].nbRb < v[k + 1].nbRb
    ensures forall n :: 1 <= n <= maxNprb ==> (Offers(v, n) <==> SomeMcsFits(t, tbs, n, maxMcs))
  {
    v := [];
    var inprb := 0;
    while inprb < maxNprb
      invariant 0 <= inprb && (inprb <= maxNprb || inprb == 0)
      invariant forall k :: 0 <= k < |v| ==> SmallestFit(t, v[k], tbs, maxMcs) && v[k].nbRb <= inprb
      invariant forall k :: 0 <= k < |v| - 1 ==> v[k].nbRb < v[k + 1].nbRb
      invariant forall n :: 1 <= n <= inprb ==> (Offers(v, n) <==> SomeMcsFits(t, tbs, n, maxMcs))
    {
      var found, e := FirstFittingMcs(t, tbs, inprb + 1, maxMcs);
      ghost var v0 := v;
      if found {
        v := v + [e];
        forall n | 1 <= n <= inprb + 1
          ensures Offers(v, n) <==> SomeMcsFits(t, tbs, n, maxMcs)
        {
          if n <= inprb {
            if Offers(v, n) {
              var k :| 0 <= k < |v| && v[k].nbRb == n;
              assert k < |v0| && v0[k].nbRb == n;
            }
            if Offers(v0, n) {
              var k :| 0 <= k < |v0| && v0[k].nbRb == n;
              assert v[k].nbRb == n;
            }
          } else {
            assert v[|v| - 1].nbRb == n;
          }
        }
      } else {
        assert forall n :: 1 <= n <= inprb + 1 ==> (Offers(v, n) <==> SomeMcsFits(t, tbs, n, maxMcs));
      }
      inprb := inprb + 1;
    }
  }

  // ---------------------------------------------------------------------
  // MCS from TBS index, target CQI offset
  // ---------------------------------------------------------------------

  /**
   * `GetMcsFromItbs`: the PUSCH MCS for a TBS index, skipping the MCS
   * values that repeat a TBS index; the result passes through a `uint8_t`.
   */
  function GetMcsFromItbs(iTbs: int, enable64Qam: bool): (mcs: int)
    ensures 0 <= mcs < 256
  {
    var m :=
      if iTbs <= 10 then iTbs
      else if iTbs < 19 then iTbs + 1
      else if iTbs == 19 && !enable64Qam then iTbs + 1
      else iTbs + 2;
    m % 256
  }

  /**
   * For every TBS index, the MCS chosen lies within two of it, is a valid
   * PUSCH MCS, and maps back to the same TBS index.
   */
  lemma McsFromItbsRoundTrip(iTbs: int, enable64Qam: bool)
    requires 0 <= iTbs < NUM_ITBS
    ensures var mcs := GetMcsFromItbs(iTbs, enable64Qam);
      iTbs <= mcs <= iTbs + 2 && mcs < 29 && McsToItbsUl[mcs] == iTbs
  {
  }

  /** `GetTrgCqiDelta`: the target-CQI offset for a power headroom given as `uint8_t`. */
  function GetTrgCqiDelta(availablePwr: int): (delta: int)
    requires 0 <= availablePwr < 256
    ensures delta == 5 <==> availablePwr <= 11
    ensures delta == 0 <==> availablePwr > 11
  {
    if availablePwr <= 11 then 5 else 0
  }

  // ---------------------------------------------------------------------
  // Uplink efficiency per TBS index and the CQI -> TBS index table
  // ---------------------------------------------------------------------

  /**
   * The integer part of `CompUlEff`'s sum over the first `n` rows of column
   * `itbs`: bits per 1024 resource elements, each quotient truncated.
   */
  function ColumnSum(t: seq<seq<int>>, itbs: ItbsIndex, n: int): int
    requires WellShaped(t) && 0 <= n <= NUM_NPRB
  {
    if n == 0 then 0
    else ColumnSum(t, itbs, n - 1) + (Tbs(t, n, itbs) * 1024) / (NO_RES_PER_RB * n)
  }

  /** The value `CompUlEff` leaves in `effTbl[itbs]`. */
  function UlEfficiency(t: seq<seq<int>>, itbs: ItbsIndex): real
    requires WellShaped(t)
  {
    ColumnSum(t, itbs, NUM_NPRB) as real / 110.0
  }

  /** `effTbl[i] <= EFF[j]` compares the integer sum against `110 * EFF[j]`. */
  lemma UlEfficiencyCompare(t: seq<seq<int>>, itbs: ItbsIndex, cqi: CqiIndex)
    requires WellShaped(t)
    ensures UlEfficiency(t, itbs) <= Eff[cqi] as real <==> ColumnSum(t, itbs, NUM_NPRB) <= 110 * Eff[cqi]
  {
  }

  lemma DivAtLeast(a: int, q: int, d: int)
    requires 0 < d && q * d <= a
    ensures q <= a / d
  {
    var r := a / d;
    assert a < r * d + d;
    assert q * d < (r + 1) * d;
    MulCancel(q, r + 1, d);
  }

  lemma MulCancel(x: int, y: int, d: int)
    requires 0 < d && x * d < y * d
    ensures x < y
  {
    if x >= y {
      MulMono(y, x, d);
    }
  }

  lemma MulMono(x: int, y: int, d: int)
    requires 0 < d && x <= y
    ensures x * d <= y * d
  {
  }

  lemma DivMonotone(a: int, b: int, d: int)
    requires 0 <= a <= b && 0 < d
    ensures a / d <= b / d
  {
    var r := a / d;
    assert r * d <= a;
    DivAtLeast(b, r, d);
  }

  lemma TermBounds(t1: int, t2: int, n: int)
    requires 1 <= n && 16 * n <= t1 <= t2
    ensures 113 <= (t1 * 1024) / (NO_RES_PER_RB * n) <= (t2 * 1024) / (NO_RES_PER_RB * n)
  {
    DivAtLeast(t1 * 1024, 113, NO_RES_PER_RB * n);
    DivMonotone(t1 * 1024, t2 * 1024, NO_RES_PER_RB * n);
  }

  lemma {:induction false} ColumnSumBounds(t: seq<seq<int>>, i: ItbsIndex, j: ItbsIndex, n: int)
    requires WellShaped(t) && i <= j && 0 <= n <= NUM_NPRB
    ensures 113 * n <= ColumnSum(t, i, n) <= ColumnSum(t, j, n)
  {
    if n > 0 {
      ColumnSumBounds(t, i, j, n - 1);
      TbsMonotoneInItbs(t, n, i, j);
      TermBounds(Tbs(t, n, i), Tbs(t, n, j), n);
    }
  }

  /**
   * The uplink efficiency grows with the TBS index, and every TBS index
   * carries at least 113 bits per 1024 resource elements.
   */
  lemma UlEfficiencyMonotone(t: seq<seq<int>>, i: ItbsIndex, j: ItbsIndex)
    requires WellShaped(t) && i <= j
    ensures 113.0 <= UlEfficiency(t, i) <= UlEfficiency(t, j)
  {
    ColumnSumBounds(t, i, j, NUM_NPRB);
  }

  /** Every column sum, the values the CQI -> TBS index mapping compares. */
  function ColumnSums(t: seq<seq<int>>): (sums: seq<int>)
    requires WellShaped(t)
    ensures |sums| == NUM_ITBS
  {
    seq(NUM_ITBS, i requires 0 <= i < NUM_ITBS => ColumnSum(t, i, NUM_NPRB))
  }

  /** Entries `1..j` of `m` set to 0, as the second loop of `FillCqiToItbsTbl` does. */
  function ZeroFill(j: int, m: seq<int>): (r: seq<int>)
    requires 0 <= j < |m|
    ensures |r| == |m|
    ensures r[0] == m[0]
    ensures forall k :: 1 <= k <= j ==> r[k] == 0
    ensures forall k :: j < k < |m| ==> r[k] == m[k]
    decreases j
  {
    if j == 0 then m else ZeroFill(j - 1, m[j := 0])
  }

  /**
   * The first loop of `FillCqiToItbsTbl` from TBS index `i` and CQI `j`
   * down: CQI `j` takes the highest remaining TBS index whose efficiency
   * does not exceed `EFF[j]`; CQIs left over when the indices run out get 0.
   */
  function CqiToItbsFrom(sums: seq<int>, i: int, j: int, m: seq<int>): (r: seq<int>)
    requires |sums| == NUM_ITBS && -1 <= i < NUM_ITBS && 0 <= j <= 15 && |m| == 16
    ensures |r| == 16
    decreases i + 1
  {
    if i >= 0 && j > 0 then
      if sums[i] <= 110 * Eff[j] then CqiToItbsFrom(sums, i - 1, j - 1, m[j := i])
      else CqiToItbsFrom(sums, i - 1, j, m)
    else ZeroFill(j, m)
  }

  lemma {:induction false} CqiToItbsFromShape(sums: seq<int>, i: int, j: int, m: seq<int>)
    requires |sums| == NUM_ITBS && -1 <= i < NUM_ITBS && 0 <= j <= 15 && |m| == 16
    requires forall k :: j < k <= 15 ==> i < m[k] < NUM_ITBS
    requires forall k :: j < k < 15 ==> m[k] < m[k + 1]
    ensures var r := CqiToItbsFrom(sums, i, j, m);
      r[0] == m[0] &&
      (forall k :: 1 <= k <= 15 ==> 0 <= r[k] < NUM_ITBS) &&
      (forall k :: 1 <= k < 15 ==> r[k] <= r[k + 1])
    decreases i + 1
  {
    if i >= 0 && j > 0 {
      if sums[i] <= 110 * Eff[j] {
        CqiToItbsFromShape(sums, i - 1, j - 1, m[j := i]);
      } else {
        CqiToItbsFromShape(sums, i - 1, j, m);
      }
    }
  }

  /**
   * Whatever the efficiencies are, the table `FillCqiToItbsTbl` builds has
   * TBS indices in [0, 26] for CQIs 1-15, non-decreasing in the CQI, and
   * its entry for CQI 0 is left as it was.
   */
  lemma CqiToItbsShape(sums: seq<int>, m: seq<int>)
    requires |sums| == NUM_ITBS && |m| == 16
    ensures var r := CqiToItbsFrom(sums, 26, 15, m);
      r[0] == m[0] &&
      (forall k :: 1 <= k <= 15 ==> 0 <= r[k] < NUM_ITBS) &&
      (forall k :: 1 <= k < 15 ==> r[k] <= r[k + 1])
  {
    CqiToItbsFromShape(sums, 26, 15, m);
  }

  /** `SinrToMcs` block bounds: UL CQI values up to bound `k` (and above bound `k-1`) map to MCS `k`. */
  const SinrToMcsBound: seq<int> :=
    [121, 131, 133, 135, 137, 139, 141, 143, 145, 147, 148, 149, 150, 151, 152,
     153, 154, 155, 156, 157, 158, 162, 166, 170, 174, 178, 182, 186, 254]

  lemma SinrToMcsBoundIncreasing()
    ensures forall k :: 0 <= k < 28 ==> SinrToMcsBound[k] < SinrToMcsBound[k + 1]
    ensures forall k :: 0 <= k < 29 ==> 121 <= SinrToMcsBound[k] <= 254
  {
  }

  /** The first block from `k` on whose bound reaches `sinr`. */
  function SinrBlock(sinr: int, k: McsIndex): (mcs: McsIndex)
    ensures k <= mcs
    decreases 28 - k
  {
    if k == 28 || sinr <= SinrToMcsBound[k] then k else SinrBlock(sinr, k + 1)
  }

  /** `SinrToMcs[sinr]` after `FillSinrToMcs`. */
  function SinrToMcsOf(sinr: int): McsIndex
  {
    SinrBlock(sinr, 0)
  }

  lemma {:induction false} SinrBlockMonotone(s1: int, s2: int, k: McsIndex)
    requires s1 <= s2
    ensures SinrBlock(s1, k) <= SinrBlock(s2, k)
    decreases 28 - k
  {
    if !(k == 28 || s2 <= SinrToMcsBound[k]) {
      SinrBlockMonotone(s1, s2, k + 1);
    }
  }

  lemma {:induction false} SinrBlockTop(sinr: int, k: McsIndex)
    requires sinr > 186
    ensures SinrBlock(sinr, k) == 28
    decreases 28 - k
  {
    if k < 28 {
      SinrToMcsBoundIncreasing();
      if k < 27 {
        assert SinrToMcsBound[k] <= SinrToMcsBound[27];
      }
      SinrBlockTop(sinr, k + 1);
    }
  }

  /**
   * `SinrToMcs` never decreases over the UL CQI range, is 0 up to 121 and
   * 28 from 187 on.
   */
  lemma SinrToMcsShape(s1: int, s2: int)
    requires 0 <= s1 <= s2 < 256
    ensures SinrToMcsOf(s1) <= SinrToMcsOf(s2)
    ensures s1 <= 121 ==> SinrToMcsOf(s1) == 0
    ensures s2 >= 187 ==> SinrToMcsOf(s2) == 28
  {
    SinrBlockMonotone(s1, s2, 0);
    if s2 >= 187 {
      SinrBlockTop(s2, 0);
    }
  }

  /** `McsToCqi` as `FillMcsToCqi` writes it. */
  const McsToCqiTable: seq<int> :=
    [0, 0, 3, 3, 4, 4, 5, 5, 6, 6, 7, 7, 7, 8, 8, 8, 9, 10, 10, 10, 11, 11, 11, 11, 12, 12, 13, 13, 14]

  /** `McsToCqi` has an entry per MCS, never decreases and stays at or below 14. */
  lemma McsToCqiShape()
    ensures |McsToCqiTable| == 29
    ensures forall m :: 0 <= m < 28 ==> McsToCqiTable[m] <= McsToCqiTable[m + 1]
    ensures forall m :: 0 <= m < 29 ==> 0 <= McsToCqiTable[m] <= 14
  {
  }

  /**
   * The static tables of `LteAmc`: the transport block size table every
   * size lookup reads, and the three arrays the constructor fills.
   */
  class LteAmc {
    const tbs: seq<seq<int>>
    const sinrToMcs: array<int>
    const mcsToCqi: array<int>
    const ulCqiToItbsTbl: array<int>

    ghost predicate Valid()
      reads this
    {
      WellShaped(tbs) &&
      sinrToMcs.Length == 256 && mcsToCqi.Length == 29 && ulCqiToItbsTbl.Length == 16 &&
      sinrToMcs != mcsToCqi && sinrToMcs != ulCqiToItbsTbl && mcsToCqi != ulCqiToItbsTbl
    }

    /** The tables hold what the builders write. */
    ghost predicate Filled()
      reads this, sinrToMcs, mcsToCqi, ulCqiToItbsTbl
      requires Valid()
    {
      (forall s :: 0 <= s < 256 ==> sinrToMcs[s] == SinrToMcsOf(s)) &&
      mcsToCqi[..] == McsToCqiTable &&
      ulCqiToItbsTbl[..] == CqiToItbsFrom(ColumnSums(tbs), 26, 15, seq(16, _ => 0))
    }

    /**
     * The arrays start zeroed, as static storage does, and are then filled;
     * `t` is the transport block size table the object reads.
     */
    constructor (t: seq<seq<int>>)
      requires WellShaped(t)
      ensures tbs == t
      ensures Valid() && Filled()
    {
      tbs := t;
      sinrToMcs := new int[256](_ => 0);
      mcsToCqi := new int[29](_ => 0);
      ulCqiToItbsTbl := new int[16](_ => 0);
      new;
      assert ulCqiToItbsTbl[..] == seq(16, _ => 0);
      FillSinrToMcs();
    }

    /** `FillSinrToMcs`, which goes on to fill the other two tables. */
    method FillSinrToMcs()
      requires Valid()
      modifies sinrToMcs, mcsToCqi, ulCqiToItbsTbl
      ensures forall s :: 0 <= s < 256 ==> sinrToMcs[s] == SinrToMcsOf(s)
      ensures mcsToCqi[..] == McsToCqiTable
      ensures ulCqiToItbsTbl[..] == CqiToItbsFrom(ColumnSums(tbs), 26, 15, old(ulCqiToItbsTbl[..]))
    {
      ghost var mcsToCqi0, ulCqiToItbsTbl0 := mcsToCqi[..], ulCqiToItbsTbl[..];
      SinrToMcsBoundIncreasing();
      var sinr := 0;
      var mcs := 0;
      while mcs < 29
        invariant 0 <= mcs <= 29
        invariant sinr == if mcs == 0 then 0 else SinrToMcsBound[mcs - 1] + 1
        invariant forall s :: 0 <= s < sinr ==> sinrToMcs[s] == SinrToMcsOf(s)
        modifies sinrToMcs
      {
        sinr := FillSinrBlock(sinr, mcs);
        mcs := mcs + 1;
      }
      assert SinrToMcsOf(255) == 28 by {
        SinrBlockTop(255, 0);
      }
      assert sinr == 255;
      sinrToMcs[sinr] := 28;
      assert mcsToCqi[..] == mcsToCqi0 && ulCqiToItbsTbl[..] == ulCqiToItbsTbl0;
      assert forall s :: 0 <= s < 256 ==> sinrToMcs[s] == SinrToMcsOf(s);
      ghost var filled := sinrToMcs[..];
      FillMcsToCqi();
      assert sinrToMcs[..] == filled;
    }

    /**
     * One of the counter loops of `FillSinrToMcs`: every UL CQI from `sinr`
     * up to the bound of block `mcs` maps to `mcs`.
     */
    method FillSinrBlock(sinr: int, mcs: McsIndex) returns (next: int)
      requires Valid()
      requires 0 <= sinr && (if mcs == 0 then sinr == 0 else sinr == SinrToMcsBound[mcs - 1] + 1)
      requires forall s :: 0 <= s < sinr ==> sinrToMcs[s] == SinrToMcsOf(s)
      modifies sinrToMcs
      ensures next == SinrToMcsBound[mcs] + 1
      ensures forall s :: 0 <= s < next ==> sinrToMcs[s] == SinrToMcsOf(s)
    {
      SinrToMcsBoundIncreasing();
      next := sinr;
      while next <= SinrToMcsBound[mcs]
        invariant sinr <= next <= SinrToMcsBound[mcs] + 1
        invariant forall s :: 0 <= s < next ==> sinrToMcs[s] == SinrToMcsOf(s)
      {
        assert SinrToMcsOf(next) == mcs by {
          SinrBlockFrom(next, mcs);
        }
        sinrToMcs[next] := mcs;
        next := next + 1;
      }
    }

    /** `FillMcsToCqi`, which goes on to fill the CQI -> TBS index table. */
    method FillMcsToCqi()
      requires Valid()
      modifies mcsToCqi, ulCqiToItbsTbl
      ensures mcsToCqi[..] == McsToCqiTable
      ensures ulCqiToItbsTbl[..] == CqiToItbsFrom(ColumnSums(tbs), 26, 15, old(ulCqiToItbsTbl[..]))
    {
      ghost var table := ulCqiToItbsTbl[..];
      var mcs := 0;
      while mcs < 29
        invariant 0 <= mcs <= 29
        invariant mcsToCqi[..mcs] == McsToCqiTable[..mcs]
        modifies mcsToCqi
      {
        mcsToCqi[mcs] := McsToCqiTable[mcs];
        mcs := mcs + 1;
      }
      assert mcsToCqi[..] == mcsToCqi[..29];
      assert ulCqiToItbsTbl[..] == table;
      FillCqiToItbsTbl();
    }

    /**
     * `FillCqiToItbsTbl`: pairs CQIs and TBS indices downward from the top,
     * then sets the CQIs left over to 0; index 0 is never written.
     */
    method FillCqiToItbsTbl()
      requires Valid()
      modifies ulCqiToItbsTbl
      ensures ulCqiToItbsTbl[..] == CqiToItbsFrom(ColumnSums(tbs), 26, 15, old(ulCqiToItbsTbl[..]))
    {
      var effTbl := new real[27];
      CompUlEff(effTbl);
      ghost var sums := ColumnSums(tbs);
      ghost var target := CqiToItbsFrom(sums, 26, 15, ulCqiToItbsTbl[..]);
      var i, j := 26, 15;
      while i >= 0 && j > 0
        invariant -1 <= i < NUM_ITBS && 0 <= j <= 15
        invariant forall k :: 0 <= k < 27 ==> effTbl[k] == UlEfficiency(tbs, k)
        invariant CqiToItbsFrom(sums, i, j, ulCqiToItbsTbl[..]) == target
        decreases i + 1
      {
        ghost var m := ulCqiToItbsTbl[..];
        UlEfficiencyCompare(tbs, i, j);
        assert sums[i] == ColumnSum(tbs, i, NUM_NPRB);
        if effTbl[i] <= Eff[j] as real {
          ulCqiToItbsTbl[j] := i;
          assert ulCqiToItbsTbl[..] == m[j := i];
          j := j - 1;
        }
        i := i - 1;
      }
      assert ZeroFill(j, ulCqiToItbsTbl[..]) == target;
      while j > 0
        invariant 0 <= j <= 15
        invariant ZeroFill(j, ulCqiToItbsTbl[..]) == target
      {
        ghost var m := ulCqiToItbsTbl[..];
        ulCqiToItbsTbl[j] := 0;
        assert ulCqiToItbsTbl[..] == m[j := 0];
        j := j - 1;
      }
    }

    /** `CompUlEff`: the mean over all allocation sizes of bits per 1024 resource elements. */
    method CompUlEff(effTbl: array<real>)
      requires Valid() && effTbl.Length == 27
      modifies effTbl
      ensures forall j :: 0 <= j < 27 ==> effTbl[j] == UlEfficiency(tbs, j)
    {
      var j := 0;
      while j < 27
        invariant 0 <= j <= 27
        invariant forall k :: 0 <= k < j ==> effTbl[k] == UlEfficiency(tbs, k)
      {
        effTbl[j] := 0.0;
        var i := 0;
        while i < 110
          invariant 0 <= i <= 110
          invariant effTbl[j] == ColumnSum(tbs, j, i) as real
          invariant forall k :: 0 <= k < j ==> effTbl[k] == UlEfficiency(tbs, k)
        {
          effTbl[j] := effTbl[j] + ((Tbs(tbs, i + 1, j) * 1024) / (NO_RES_PER_RB * (i + 1))) as real;
          i := i + 1;
        }
        effTbl[j] := effTbl[j] / 110.0;
        j := j + 1;
      }
    }

    /** `GetItbsFromCqi`: a TBS index, never above the next CQI's. */
    function GetItbsFromCqi(cqi: int): (itbs: int)
      reads this, sinrToMcs, mcsToCqi, ulCqiToItbsTbl
      requires Valid() && Filled() && 0 <= cqi < 16
      ensures 0 <= itbs < NUM_ITBS
      ensures 0 < cqi < 15 ==> itbs <= ulCqiToItbsTbl[cqi + 1]
    {
      CqiToItbsShape(ColumnSums(tbs), seq(16, _ => 0));
      ulCqiToItbsTbl[cqi]
    }

    /** `GetCqiFromMcs`: a CQI up to 14, never above the next MCS's. */
    function GetCqiFromMcs(mcs: int): (cqi: int)
      reads this, sinrToMcs, mcsToCqi, ulCqiToItbsTbl
      requires Valid() && Filled() && 0 <= mcs < 29
      ensures 0 <= cqi <= 14
      ensures mcs < 28 ==> cqi <= mcsToCqi[mcs + 1]
    {
      McsToCqiShape();
      mcsToCqi[mcs]
    }
  }

  lemma {:induction false} SinrBlockFrom(sinr: int, k: McsIndex)
    requires sinr <= SinrToMcsBound[k]
    requires k > 0 ==> sinr > SinrToMcsBound[k - 1]
    ensures SinrToMcsOf(sinr) == k
  {
    SinrToMcsBoundIncreasing();
    var j := 0;
    while j < k
      invariant 0 <= j <= k
      invariant SinrBlock(sinr, j) == SinrBlock(sinr, 0)
    {
      assert SinrToMcsBound[j] <= SinrToMcsBound[k - 1] by {
        var t := j;
        while t < k - 1
          invariant j <= t <= k - 1
          invariant SinrToMcsBound[j] <= SinrToMcsBound[t]
        {
          t := t + 1;
        }
      }
      j := j + 1;
    }
  }
}
