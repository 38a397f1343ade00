/**
 * The constant tables of the proportional-fair MAC scheduler
 * (`pw-ff-mac-scheduler.cc`): resource-block-group limits, power per
 * number of resource blocks, the uplink SINR -> TBS index map, path-loss
 * thresholds and target CQIs, and the scheduler's own copy of the
 * transport block size table.
 */
module SchedTables {
  import opened TbsShape

  /** Upper bandwidth limits of the four RBG sizes (3GPP TS 36.213 Table 7.1.6.1-1). */
  const PfType0AllocationRbg: seq<int> := [10, 26, 63, 110]

  type PwrDb = x: int | 0 <= x <= 20

  /** Power, in dB, of transmitting on `k` resource blocks, for `k` in 1..110 (entry 0 is a dummy). */
  const PwrRbToPwrdBTbl: seq<PwrDb> := [0,
    0, 3, 4, 6, 7, 7, 8, 9, 9, 10,
    10, 10, 11, 11, 11, 12, 12, 12, 12, 13,
    13, 13, 13, 13, 14, 14, 14, 14, 14, 14,
    15, 15, 15, 15, 15, 15, 15, 15, 16, 16,
    16, 16, 16, 16, 16, 16, 16, 16, 17, 17,
    17, 17, 17, 17, 17, 17, 17, 17, 17, 17,
    17, 18, 18, 18, 18, 18, 18, 18, 18, 18,
    18, 18, 18, 18, 18, 18, 18, 19, 19, 19,
    19, 19, 19, 19, 19, 19, 19, 19, 19, 19,
    19, 19, 19, 19, 19, 19, 19, 20, 20, 20,
    20, 20, 20, 20, 20, 20, 20, 20, 20, 20]

  type RbCount = x: int | 1 <= x <= 103 witness 1

  /** Number of resource blocks that `p` dB of headroom buys, for `p` in 0..20. */
  const PwrToRbTbl: seq<RbCount> :=
    [1, 1, 2, 2, 3, 4, 5, 6, 7, 9, 11, 13, 17, 21, 26, 33, 41, 52, 65, 82, 103]

  /** Path-loss thresholds and the target CQI of each path-loss band. */
  const PathLoss: seq<int> := [100, 105, 110, 115]
  const TargetCqi: seq<int> := [11, 10, 8, 7, 5]

  /** QCI priorities, indexed by QCI - 1. */
  const Qciprio: seq<int> := [8, 6, 7, 5, 0, 4, 3, 2, 1, 0, 0, 0, 0, 0, 0, 0, 0, 0, 0]
  const GBR_QCI_START := 0
  const GBR_QCI_END := 3
  const NGBR_QCI_START := 5
  const NGBR_QCI_END := 9

  type ItbsValue = x: int | 0 <= x < NUM_ITBS

  /** The entries of `UlSinrToItbsTbl` that rise from TBS index 1 to 25 (indices 117..168), in four parts. */
  const UlSinrToItbsRamp1: seq<ItbsValue> := [1, 1, 1, 2, 2, 3, 3, 4, 4, 5, 6, 6, 6]
  const UlSinrToItbsRamp2: seq<ItbsValue> := [7, 7, 8, 8, 9, 10, 10, 10, 10, 10, 11, 11, 12]
  const UlSinrToItbsRamp3: seq<ItbsValue> := [12, 13, 14, 15, 15, 16, 16, 17, 17, 18, 19, 19, 19]
  const UlSinrToItbsRamp4: seq<ItbsValue> := [20, 20, 21, 21, 22, 23, 23, 23, 24, 25, 25, 25, 25]
  const UlSinrToItbsRamp: seq<ItbsValue> :=
    UlSinrToItbsRamp1 + UlSinrToItbsRamp2 + UlSinrToItbsRamp3 + UlSinrToItbsRamp4

  /** `n` copies of `v`. */
  function Repeat(n: nat, v: ItbsValue): (s: seq<ItbsValue>)
    ensures |s| == n && forall i :: 0 <= i < n ==> s[i] == v
  {
    if n == 0 then [] else Repeat(n - 1, v) + [v]
  }

  /**
   * `UlSinrToItbsTbl[255]` as declared: 117 zeros, the ramp, then 85
   * entries of 26. The initialiser lists only 254 values, so the last
   * entry is the zero the compiler fills in.
   */
  const UlSinrToItbsTblAsWritten: seq<ItbsValue> :=
    Repeat(117, 0) + UlSinrToItbsRamp + Repeat(85, 26) + [0]

  /** The table as evidently intended: the run of 26 reaches the last entry. */
  const UlSinrToItbsTbl: seq<ItbsValue> :=
    Repeat(117, 0) + UlSinrToItbsRamp + Repeat(86, 26)

  /** The declared table drops from TBS index 26 to 0 at its very last entry. */
  lemma UlSinrToItbsTblAsWrittenDrops()
    ensures |UlSinrToItbsTblAsWritten| == 255
    ensures UlSinrToItbsTblAsWritten[253] == 26 && UlSinrToItbsTblAsWritten[254] == 0
    ensures !NonDecreasing(UlSinrToItbsTblAsWritten)
  {
    var s := UlSinrToItbsTblAsWritten;
    assert s[253] == 26 && s[254] == 0;
  }

  lemma UlSinrToItbsRampNonDecreasing()
    ensures |UlSinrToItbsRamp| == 52
    ensures NonDecreasing(UlSinrToItbsRamp)
  {
    var a, b, c, d := UlSinrToItbsRamp1, UlSinrToItbsRamp2, UlSinrToItbsRamp3, UlSinrToItbsRamp4;
    assert NonDecreasing(a) && NonDecreasing(b) && NonDecreasing(c) && NonDecreasing(d);
    ConcatNonDecreasing(a, b);
    ConcatNonDecreasing(a + b, c);
    ConcatNonDecreasing(a + b + c, d);
  }

  lemma ConcatNonDecreasing(a: seq<int>, b: seq<int>)
    requires NonDecreasing(a) && NonDecreasing(b)
    requires |a| > 0 && |b| > 0 && a[|a| - 1] <= b[0]
    ensures NonDecreasing(a + b)
  {
    var s := a + b;
    forall j | 0 <= j < |s| - 1
      ensures s[j] <= s[j + 1]
    {
      if j + 1 < |a| {
        assert s[j] == a[j] && s[j + 1] == a[j + 1];
      } else if j + 1 == |a| {
        assert s[j] == a[|a| - 1] && s[j + 1] == b[0];
      } else {
        assert s[j] == b[j - |a|] && s[j + 1] == b[j + 1 - |a|];
      }
    }
  }

  /**
   * The intended table has 255 entries and never lowers the TBS index as
   * the SINR rises; it differs from the declared one only in its last entry.
   */
  lemma UlSinrToItbsTblNonDecreasing()
    ensures |UlSinrToItbsTbl| == 255
    ensures NonDecreasing(UlSinrToItbsTbl)
    ensures UlSinrToItbsTbl[..254] == UlSinrToItbsTblAsWritten[..254]
    ensures UlSinrToItbsTbl[0] == 0 && UlSinrToItbsTbl[254] == NUM_ITBS - 1
  {
    UlSinrToItbsRampNonDecreasing();
    var s := UlSinrToItbsTbl;
    forall j | 0 <= j < |s| - 1
      ensures s[j] <= s[j + 1]
    {
      if 116 <= j < 117 + 52 {
        if j == 116 {
        } else if j < 168 {
          assert s[j] == UlSinrToItbsRamp[j - 117] && s[j + 1] == UlSinrToItbsRamp[j - 116];
        }
      }
    }
  }

  /**
   * The scheduler's own `TbSzTbl[itbs][nprb - 1]`, as declared: the AMC
   * table transposed, except that it keeps the standard's 328 at TBS
   * index 6 for one resource block.
   */
  function SchedTbSizeAsWritten(t: seq<seq<int>>, itbs: int, nprb: int): int
    requires WellShaped(t) && 0 <= itbs < NUM_ITBS && 1 <= nprb <= NUM_NPRB
  {
    if itbs == 6 && nprb == 1 then 328 else Tbs(t, nprb, itbs)
  }

  /**
   * `TbSzTbl[itbs][nprb - 1]` as evidently intended: the same entries as
   * the AMC table, which grow with the TBS index and with the number of
   * resource blocks.
   */
  function SchedTbSize(t: seq<seq<int>>, itbs: int, nprb: int): (tbs: int)
    requires WellShaped(t) && 0 <= itbs < NUM_ITBS && 1 <= nprb <= NUM_NPRB
    ensures 16 * nprb <= tbs <= MAX_TBS
    ensures itbs != 6 || nprb != 1 ==> tbs == SchedTbSizeAsWritten(t, itbs, nprb)
  {
    Tbs(t, nprb, itbs)
  }

  lemma SchedTbSizeMonotone(t: seq<seq<int>>, i: int, j: int, n: int, m: int)
    requires WellShaped(t) && 0 <= i <= j < NUM_ITBS && 1 <= n <= m <= NUM_NPRB
    ensures SchedTbSize(t, i, n) <= SchedTbSize(t, j, m)
  {
    TbsMonotoneInItbs(t, n, i, j);
    TbsMonotoneInNprb(t, n, m, j);
  }
}
