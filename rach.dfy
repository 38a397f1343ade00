/**
 * The random-access part of the downlink trigger of
 * `pw-ff-mac-scheduler.cc`: the search for the longest run of free
 * uplink resource blocks, and the loop that gives each random-access
 * request, in order, the shortest grant from the start of that run which
 * carries its estimated size, until one does not fit.
 */
module Rach {
  import opened TbsShape
  import Amc
  import Power
  import opened UlHarq
  import opened UlPowerControl

  /** `RachListElement_s`: the RNTI and the estimated message size in bits. */
  datatype RachRequest = RachRequest(rnti: int, estimatedSize: int)

  /** The uplink grant of `BuildRarListElement_s`; hopping, TPC, CQI request and delay are constants. */
  datatype RarGrant = RarGrant(rnti: int, rbStart: int, rbLen: int, mcs: int, tbSize: int)

  /** RBs o..o+len-1 exist and are all free (false in the map). */
  predicate FreeRun(m: seq<bool>, o: int, len: int)
  {
    0 <= o && 0 <= len && o + len <= |m| && forall i :: o <= i < o + len ==> !m[i]
  }

  /** The number of used RBs. */
  function CountUsed(m: seq<bool>): (n: nat)
    ensures n <= |m|
  {
    if m == [] then 0 else CountUsed(m[..|m| - 1]) + if m[|m| - 1] then 1 else 0
  }

  /**
   * A free run that is not the first of the longest: no run starting
   * earlier is as long, and none at all is longer.
   */
  ghost predicate FirstLongest(m: seq<bool>, offset: int, maxLen: int)
  {
    FreeRun(m, offset, maxLen) &&
    (forall o, l :: FreeRun(m, o, l) ==> l <= maxLen) &&
    (maxLen > 0 ==> forall o :: 0 <= o < offset ==> !FreeRun(m, o, maxLen)) &&
    (maxLen == 0 ==> offset == 0)
  }

  /** A run ending at position i is cut by a used RB before it, or starts at 0. */
  lemma RunsSplit(m: seq<bool>, i: int, tmp: int, o: int, l: int)
    requires 0 <= tmp <= i <= |m| && (i - tmp == 0 || m[i - tmp - 1])
    requires FreeRun(m, o, l) && o + l <= i && l > 0
    ensures o + l <= i - tmp - 1 || o >= i - tmp
  {
    if o < i - tmp {
      assert m[i - tmp - 1];
    }
  }

  /**
   * The scan over `ulRbMap`: the number of used RBs and the first of the
   * longest free runs. The counters are `uint8_t`, which the uplink
   * bandwidth of at most 110 RBs never overflows.
   */
  method LongestFreeRun(m: seq<bool>) returns (used: int, offset: int, maxLen: int)
    requires |m| <= NUM_NPRB
    ensures used == CountUsed(m)
    ensures FirstLongest(m, offset, maxLen)
  {
    used := 0;
    maxLen := 0;
    var tmp := 0;
    offset := 0;
    var tmpOffset := 0;
    for i := 0 to |m|
      invariant used == CountUsed(m[..i])
      invariant 0 <= tmp <= i && FreeRun(m, i - tmp, tmp) && (i - tmp == 0 || m[i - tmp - 1])
      invariant tmp > 0 ==> tmpOffset == i - tmp
      invariant FreeRun(m, offset, maxLen) && offset + maxLen <= i - tmp
      invariant forall o, l :: FreeRun(m, o, l) && o + l <= i - tmp ==> l <= maxLen
      invariant maxLen > 0 ==> forall o :: 0 <= o < offset ==> !FreeRun(m, o, maxLen)
      invariant maxLen == 0 ==> offset == 0
    {
      assert m[..i + 1][..i] == m[..i];
      if m[i] {
        used := used + 1;
        if tmp > maxLen {
          forall o | 0 <= o < i - tmp
            ensures !FreeRun(m, o, tmp)
          {
            if FreeRun(m, o, tmp) {
              RunsSplit(m, i, tmp, o, tmp);
            }
          }
          maxLen := tmp;
          offset := tmpOffset;
        }
        forall o, l | FreeRun(m, o, l) && o + l <= i + 1
          ensures l <= maxLen
        {
          if l > 0 && o + l <= i && o + l > i - tmp {
            RunsSplit(m, i, tmp, o, l);
          }
        }
        tmp := 0;
      } else {
        if tmp == 0 {
          tmpOffset := i;
        }
        tmp := tmp + 1;
      }
    }
    assert m[..|m|] == m;
    if tmp > maxLen {
      forall o | 0 <= o < |m| - tmp
        ensures !FreeRun(m, o, tmp)
      {
        if FreeRun(m, o, tmp) {
          RunsSplit(m, |m|, tmp, o, tmp);
        }
      }
      maxLen := tmp;
      offset := tmpOffset;
    }
    forall o, l | FreeRun(m, o, l)
      ensures l <= maxLen
    {
      if l > 0 && o + l > |m| - tmp {
        RunsSplit(m, |m|, tmp, o, l);
      }
    }
  }

  /** `tbSizeBits` is a `uint16_t`: the transport block size is truncated to 16 bits. */
  function TbBits(t: seq<seq<int>>, mcs: int, len: int): (b: int)
    requires WellShaped(t) && 0 <= mcs < 29 && 1 <= len <= NUM_NPRB
    ensures 0 <= b < 0x1_0000
  {
    Amc.GetUlTbSizeFromMcs(t, mcs, len) % 0x1_0000
  }

  /** The 16-bit block sizes of 0 to n RBs at the grant MCS (none at 0). */
  function UlBitsUpTo(t: seq<seq<int>>, mcs: int, n: int): (bits: seq<int>)
    requires WellShaped(t) && 0 <= mcs < 29 && 0 <= n <= NUM_NPRB
    ensures |bits| == n + 1
  {
    if n == 0 then [0] else UlBitsUpTo(t, mcs, n - 1) + [TbBits(t, mcs, n)]
  }

  /** The 16-bit block size of every length at the grant MCS, indexed by the number of RBs. */
  function UlBits(t: seq<seq<int>>, mcs: int): (bits: seq<int>)
    requires WellShaped(t) && 0 <= mcs < 29
    ensures |bits| == NUM_NPRB + 1
  {
    UlBitsUpTo(t, mcs, NUM_NPRB)
  }

  lemma {:induction false} UlBitsUpToAt(t: seq<seq<int>>, mcs: int, n: int, l: int)
    requires WellShaped(t) && 0 <= mcs < 29 && 1 <= l <= n <= NUM_NPRB
    ensures UlBitsUpTo(t, mcs, n)[l] == TbBits(t, mcs, l)
  {
    if l < n {
      UlBitsUpToAt(t, mcs, n - 1, l);
    }
  }

  /** Entry l of the row is the 16-bit size of l RBs. */
  lemma UlBitsAt(t: seq<seq<int>>, mcs: int, l: int)
    requires WellShaped(t) && 0 <= mcs < 29 && 1 <= l <= NUM_NPRB
    ensures UlBits(t, mcs)[l] == Amc.GetUlTbSizeFromMcs(t, mcs, l) % 0x1_0000
  {
    UlBitsUpToAt(t, mcs, NUM_NPRB, l);
  }

  /** The growth loop from length l on: stop once the block carries `est` bits or the run is used up. */
  function GrowFrom(bits: seq<int>, est: int, rbStart: int, end: int, l: int): (len: int)
    requires |bits| == NUM_NPRB + 1 && 2 <= l && rbStart + l <= end && 0 <= rbStart && end <= NUM_NPRB
    ensures l <= len && rbStart + len <= end
    ensures bits[len] >= est || rbStart + len == end
    ensures forall k :: l <= k < len ==> bits[k] < est
    decreases end - l
  {
    if bits[l] >= est || rbStart + l == end then l else GrowFrom(bits, est, rbStart, end, l + 1)
  }

  /**
   * The `rbLen` the while loop ends with, starting from one RB and no
   * bits: the first length from 2 on whose block carries `est`, unless
   * the run `[.., end)` is used up first. One RB is never granted by
   * the loop, because the size is computed only after the first increment.
   */
  function GrantLength(bits: seq<int>, est: int, rbStart: int, end: int): (len: int)
    requires |bits| == NUM_NPRB + 1 && 0 <= rbStart && end <= NUM_NPRB
  {
    if rbStart + 1 >= end then 1 else GrowFrom(bits, est, rbStart, end, 2)
  }

  /** Bits that the loop's grant carries: none if it never ran. */
  function GrantBits(bits: seq<int>, est: int, rbStart: int, end: int): int
    requires |bits| == NUM_NPRB + 1 && 0 <= rbStart && end <= NUM_NPRB
  {
    if rbStart + 1 >= end then 0 else bits[GrantLength(bits, est, rbStart, end)]
  }

  /** A request is served when the bits reach its estimated size; otherwise allocation stops. */
  predicate Fits(bits: seq<int>, est: int, rbStart: int, end: int)
    requires |bits| == NUM_NPRB + 1 && 0 <= rbStart && end <= NUM_NPRB
  {
    GrantBits(bits, est, rbStart, end) >= est
  }

  /**
   * A fitting grant for a positive size lies inside the run, carries the
   * size, and is the shortest of at least two RBs that does; a size that
   * does not fit is carried by no length of at least two RBs in the run.
   */
  lemma GrantLengthSpec(bits: seq<int>, est: int, rbStart: int, end: int)
    requires |bits| == NUM_NPRB + 1 && 0 <= rbStart && end <= NUM_NPRB && est >= 1
    ensures var len := GrantLength(bits, est, rbStart, end);
      Fits(bits, est, rbStart, end) ==>
        2 <= len && rbStart + len <= end && bits[len] >= est &&
        forall k :: 2 <= k < len ==> bits[k] < est
    ensures !Fits(bits, est, rbStart, end) ==>
      forall k :: 2 <= k && rbStart + k <= end ==> bits[k] < est
  {
  }

  /**
   * While the block of the grant MCS over the whole bandwidth stays
   * below 2^16 bits, the 16-bit size is the true size, and the grant is
   * the shortest of at least two RBs of any that carries the request.
   */
  lemma GrantShortest(t: seq<seq<int>>, mcs: int, est: int, rbStart: int, end: int, k: int)
    requires WellShaped(t) && 0 <= mcs < 29 && 0 <= rbStart && end <= NUM_NPRB && est >= 1
    requires Amc.GetUlTbSizeFromMcs(t, mcs, NUM_NPRB) < 0x1_0000
    requires Fits(UlBits(t, mcs), est, rbStart, end) && 2 <= k && rbStart + k <= end
    ensures Amc.GetUlTbSizeFromMcs(t, mcs, k) >= est <==> k >= GrantLength(UlBits(t, mcs), est, rbStart, end)
  {
    var bits := UlBits(t, mcs);
    var len := GrantLength(bits, est, rbStart, end);
    GrantLengthSpec(bits, est, rbStart, end);
    Amc.TbSizeMonotone(t, mcs, mcs, k, NUM_NPRB);
    Amc.TbSizeMonotone(t, mcs, mcs, len, NUM_NPRB);
    UlBitsAt(t, mcs, len);
    UlBitsAt(t, mcs, k);
    if k >= len {
      Amc.TbSizeMonotone(t, mcs, mcs, len, k);
    }
  }

  /** Where the allocation loop stands: the grants so far, the next free RB, whether it has stopped. */
  datatype RachState = RachState(grants: seq<RarGrant>, next: int, stopped: bool)

  /** One turn of the loop for one request. */
  function Turn(bits: seq<int>, mcs: int, s: RachState, req: RachRequest, end: int): (r: RachState)
    requires |bits| == NUM_NPRB + 1 && 0 <= s.next && end <= NUM_NPRB
  {
    if s.stopped then s
    else if !Fits(bits, req.estimatedSize, s.next, end) then s.(stopped := true)
    else
      var len := GrantLength(bits, req.estimatedSize, s.next, end);
      RachState(s.grants + [RarGrant(req.rnti, s.next, len, mcs, GrantBits(bits, req.estimatedSize, s.next, end) / 8)],
                s.next + len, false)
  }

  /** The loop after its first n turns, started at `offset` in the run that ends at `end`. */
  function Run(bits: seq<int>, mcs: int, reqs: seq<RachRequest>, n: int, offset: int, end: int): (s: RachState)
    requires |bits| == NUM_NPRB + 1 && 0 <= offset <= end <= NUM_NPRB && 0 <= n <= |reqs|
    requires forall k :: 0 <= k < |reqs| ==> reqs[k].estimatedSize >= 1
    ensures offset <= s.next <= end && |s.grants| <= n
    decreases n
  {
    if n == 0 then RachState([], offset, false)
    else
      var p := Run(bits, mcs, reqs, n - 1, offset, end);
      GrantLengthSpec(bits, reqs[n - 1].estimatedSize, p.next, end);
      Turn(bits, mcs, p, reqs[n - 1], end)
  }

  /** The grants of the random-access loop: each request in turn, until one does not fit. */
  function Grants(bits: seq<int>, mcs: int, reqs: seq<RachRequest>, offset: int, end: int): (g: seq<RarGrant>)
    requires |bits| == NUM_NPRB + 1 && 0 <= offset <= end <= NUM_NPRB
    requires forall k :: 0 <= k < |reqs| ==> reqs[k].estimatedSize >= 1
    ensures |g| <= |reqs|
  {
    Run(bits, mcs, reqs, |reqs|, offset, end).grants
  }

  /** The number of requests the loop looks at (and calls `cfgUe` for): those granted and the one that did not fit. */
  function Tried(bits: seq<int>, mcs: int, reqs: seq<RachRequest>, offset: int, end: int): (n: int)
    requires |bits| == NUM_NPRB + 1 && 0 <= offset <= end <= NUM_NPRB
    requires forall k :: 0 <= k < |reqs| ==> reqs[k].estimatedSize >= 1
    ensures 0 <= n <= |reqs|
  {
    RunCount(bits, mcs, reqs, |reqs|, offset, end);
    var s := Run(bits, mcs, reqs, |reqs|, offset, end);
    |s.grants| + if s.stopped then 1 else 0
  }

  /** The RB right after the last grant (the run's start when there is none). */
  function NextStart(g: seq<RarGrant>, offset: int): int
  {
    if g == [] then offset else g[|g| - 1].rbStart + g[|g| - 1].rbLen
  }

  /**
   * The loop that has not stopped holds a grant per turn; one that has
   * stopped holds fewer; the next free RB follows the last grant.
   */
  lemma {:induction false} RunCount(bits: seq<int>, mcs: int, reqs: seq<RachRequest>, n: int, offset: int, end: int)
    requires |bits| == NUM_NPRB + 1 && 0 <= offset <= end <= NUM_NPRB && 0 <= n <= |reqs|
    requires forall k :: 0 <= k < |reqs| ==> reqs[k].estimatedSize >= 1
    ensures var s := Run(bits, mcs, reqs, n, offset, end);
      (if s.stopped then |s.grants| < n else |s.grants| == n) && s.next == NextStart(s.grants, offset)
    decreases n
  {
    if n > 0 {
      RunCount(bits, mcs, reqs, n - 1, offset, end);
    }
  }

  /** Later turns only add grants, and once stopped the loop stays as it is. */
  lemma {:induction false} RunPrefix(bits: seq<int>, mcs: int, reqs: seq<RachRequest>, m: int, n: int, offset: int, end: int)
    requires |bits| == NUM_NPRB + 1 && 0 <= offset <= end <= NUM_NPRB && 0 <= m <= n <= |reqs|
    requires forall k :: 0 <= k < |reqs| ==> reqs[k].estimatedSize >= 1
    ensures var a := Run(bits, mcs, reqs, m, offset, end);
      var b := Run(bits, mcs, reqs, n, offset, end);
      a.grants <= b.grants && (a.stopped ==> b == a)
    decreases n - m
  {
    if m < n {
      RunPrefix(bits, mcs, reqs, m, n - 1, offset, end);
    }
  }

  /** A turn that leaves the loop running has added the grant of its request. */
  lemma TurnGrants(bits: seq<int>, mcs: int, reqs: seq<RachRequest>, k: int, offset: int, end: int)
    requires |bits| == NUM_NPRB + 1 && 0 <= offset <= end <= NUM_NPRB && 0 <= k < |reqs|
    requires forall i :: 0 <= i < |reqs| ==> reqs[i].estimatedSize >= 1
    requires !Run(bits, mcs, reqs, k + 1, offset, end).stopped
    ensures var s := Run(bits, mcs, reqs, k, offset, end);
      var est := reqs[k].estimatedSize;
      !s.stopped && Fits(bits, est, s.next, end) &&
      Run(bits, mcs, reqs, k + 1, offset, end).grants ==
        s.grants + [RarGrant(reqs[k].rnti, s.next, GrantLength(bits, est, s.next, end), mcs, GrantBits(bits, est, s.next, end) / 8)]
  {
  }

  /** A grant with index k means the loop was still running after turn k + 1. */
  lemma RunningAt(bits: seq<int>, mcs: int, reqs: seq<RachRequest>, offset: int, end: int, k: int)
    requires |bits| == NUM_NPRB + 1 && 0 <= offset <= end <= NUM_NPRB
    requires forall i :: 0 <= i < |reqs| ==> reqs[i].estimatedSize >= 1
    requires 0 <= k < |Grants(bits, mcs, reqs, offset, end)|
    ensures k + 1 <= |reqs|
    ensures var s := Run(bits, mcs, reqs, k + 1, offset, end);
      !s.stopped && s.grants == Grants(bits, mcs, reqs, offset, end)[..k + 1]
  {
    var g := Grants(bits, mcs, reqs, offset, end);
    assert k + 1 <= |reqs|;
    var a := Run(bits, mcs, reqs, k + 1, offset, end);
    var b := Run(bits, mcs, reqs, |reqs|, offset, end);
    RunCount(bits, mcs, reqs, k + 1, offset, end);
    RunPrefix(bits, mcs, reqs, k + 1, |reqs|, offset, end);
    PrefixSlice(a.grants, g);
  }

  lemma PrefixSlice<T>(a: seq<T>, b: seq<T>)
    requires a <= b
    ensures a == b[..|a|]
  {
  }

  /** Grant k was made in turn k, from where the loop then stood, for request k, which fitted. */
  lemma GrantMade(bits: seq<int>, mcs: int, reqs: seq<RachRequest>, offset: int, end: int, k: int)
    requires |bits| == NUM_NPRB + 1 && 0 <= offset <= end <= NUM_NPRB
    requires forall i :: 0 <= i < |reqs| ==> reqs[i].estimatedSize >= 1
    requires 0 <= k < |Grants(bits, mcs, reqs, offset, end)|
    ensures k < |reqs|
    ensures var s := Run(bits, mcs, reqs, k, offset, end);
      var est := reqs[k].estimatedSize;
      !s.stopped && s.grants == Grants(bits, mcs, reqs, offset, end)[..k] && Fits(bits, est, s.next, end) &&
      Grants(bits, mcs, reqs, offset, end)[k] ==
        RarGrant(reqs[k].rnti, s.next, GrantLength(bits, est, s.next, end), mcs, GrantBits(bits, est, s.next, end) / 8)
  {
    var g := Grants(bits, mcs, reqs, offset, end);
    RunningAt(bits, mcs, reqs, offset, end, k);
    TurnGrants(bits, mcs, reqs, k, offset, end);
    var s := Run(bits, mcs, reqs, k, offset, end);
    var s' := Run(bits, mcs, reqs, k + 1, offset, end);
    assert g[..k + 1][..k] == g[..k];
    assert g[..k + 1][k] == g[k];
  }

  /**
   * Grant k goes to request k at the grant MCS, lies in the run, and
   * carries its request's size in the fewest RBs from two on; its size
   * field is that block in bytes.
   */
  lemma GrantFit(bits: seq<int>, mcs: int, reqs: seq<RachRequest>, offset: int, end: int, k: int)
    requires |bits| == NUM_NPRB + 1 && 0 <= offset <= end <= NUM_NPRB
    requires forall i :: 0 <= i < |reqs| ==> reqs[i].estimatedSize >= 1
    requires 0 <= k < |Grants(bits, mcs, reqs, offset, end)|
    ensures var g := Grants(bits, mcs, reqs, offset, end);
      g[k].rnti == reqs[k].rnti && g[k].mcs == mcs &&
      offset <= g[k].rbStart && 2 <= g[k].rbLen && g[k].rbStart + g[k].rbLen <= end &&
      bits[g[k].rbLen] >= reqs[k].estimatedSize && g[k].tbSize == bits[g[k].rbLen] / 8 &&
      (forall l :: 2 <= l < g[k].rbLen ==> bits[l] < reqs[k].estimatedSize)
  {
    GrantMade(bits, mcs, reqs, offset, end, k);
    var s := Run(bits, mcs, reqs, k, offset, end);
    GrantLengthSpec(bits, reqs[k].estimatedSize, s.next, end);
  }

  /** The grants tile the run from its start: each begins where the previous one ended. */
  lemma GrantNext(bits: seq<int>, mcs: int, reqs: seq<RachRequest>, offset: int, end: int, k: int)
    requires |bits| == NUM_NPRB + 1 && 0 <= offset <= end <= NUM_NPRB
    requires forall i :: 0 <= i < |reqs| ==> reqs[i].estimatedSize >= 1
    requires 0 <= k < |Grants(bits, mcs, reqs, offset, end)|
    ensures var g := Grants(bits, mcs, reqs, offset, end);
      g[k].rbStart == if k == 0 then offset else g[k - 1].rbStart + g[k - 1].rbLen
  {
    GrantMade(bits, mcs, reqs, offset, end, k);
    RunCount(bits, mcs, reqs, k, offset, end);
  }

  /**
   * The loop looks at every request up to and including the first that
   * does not fit, and that one no length of at least two RBs left in the
   * run can carry.
   */
  lemma GrantsStop(bits: seq<int>, mcs: int, reqs: seq<RachRequest>, offset: int, end: int)
    requires |bits| == NUM_NPRB + 1 && 0 <= offset <= end <= NUM_NPRB
    requires forall i :: 0 <= i < |reqs| ==> reqs[i].estimatedSize >= 1
    ensures var g := Grants(bits, mcs, reqs, offset, end);
      Tried(bits, mcs, reqs, offset, end) == (if |g| < |reqs| then |g| + 1 else |reqs|) &&
      (|g| < |reqs| ==>
        forall l :: 2 <= l <= NUM_NPRB && NextStart(g, offset) + l <= end ==> bits[l] < reqs[|g|].estimatedSize)
  {
    var g := Grants(bits, mcs, reqs, offset, end);
    RunCount(bits, mcs, reqs, |reqs|, offset, end);
    if |g| < |reqs| {
      var k := |g|;
      RunCount(bits, mcs, reqs, k, offset, end);
      RunCount(bits, mcs, reqs, k + 1, offset, end);
      RunPrefix(bits, mcs, reqs, k, |reqs|, offset, end);
      RunPrefix(bits, mcs, reqs, k + 1, |reqs|, offset, end);
      var s := Run(bits, mcs, reqs, k, offset, end);
      GrantLengthSpec(bits, reqs[k].estimatedSize, s.next, end);
      assert s.grants == g[..k];
      assert g[..k] == g;
    }
  }

  /** `m_rachAllocationMap.resize (bandwidth, 0)`: entries kept, new ones 0. */
  function Resize(m: seq<int>, n: nat): (r: seq<int>)
    ensures |r| == n
  {
    seq(n, i requires 0 <= i < n => if i < |m| then m[i] else 0)
  }

  /** The RNTI of each granted RB written into the random-access map, grant after grant. */
  function MarkGrants(m: seq<int>, g: seq<RarGrant>): (r: seq<int>)
    ensures |r| == |m|
  {
    if g == [] then m
    else
      Paint(MarkGrants(m, g[..|g| - 1]), g[|g| - 1])
  }

  /** The RNTI of one grant written over the RBs it covers. */
  function Paint(p: seq<int>, last: RarGrant): (r: seq<int>)
    ensures |r| == |p|
  {
    seq(|p|, i requires 0 <= i < |p| => if last.rbStart <= i < last.rbStart + last.rbLen then last.rnti else p[i])
  }

  /** With disjoint grants, an RB holds the RNTI of the grant that covers it, or what it held. */
  lemma {:induction false} MarkGrantsSpec(m: seq<int>, g: seq<RarGrant>, i: int)
    requires 0 <= i < |m|
    requires forall a, b :: 0 <= a < b < |g| ==> g[a].rbStart + g[a].rbLen <= g[b].rbStart
    ensures (forall k :: 0 <= k < |g| ==> !(g[k].rbStart <= i < g[k].rbStart + g[k].rbLen)) ==> MarkGrants(m, g)[i] == m[i]
    ensures forall k :: 0 <= k < |g| && g[k].rbStart <= i < g[k].rbStart + g[k].rbLen ==> MarkGrants(m, g)[i] == g[k].rnti
  {
    if g != [] {
      MarkGrantsSpec(m, g[..|g| - 1], i);
      assert forall k :: 0 <= k < |g| - 1 ==> g[..|g| - 1][k] == g[k];
    }
  }

  /** Grants returned by `Grants` are ordered and disjoint. */
  lemma GrantsOrdered(bits: seq<int>, mcs: int, reqs: seq<RachRequest>, offset: int, end: int)
    requires |bits| == NUM_NPRB + 1 && 0 <= offset <= end <= NUM_NPRB
    requires forall i :: 0 <= i < |reqs| ==> reqs[i].estimatedSize >= 1
    ensures var g := Grants(bits, mcs, reqs, offset, end);
      forall a, b :: 0 <= a < b < |g| ==> g[a].rbStart + g[a].rbLen <= g[b].rbStart
  {
    var g := Grants(bits, mcs, reqs, offset, end);
    forall a, b | 0 <= a < b < |g|
      ensures g[a].rbStart + g[a].rbLen <= g[b].rbStart
    {
      var k := a + 1;
      GrantNext(bits, mcs, reqs, offset, end, k);
      while k < b
        invariant a + 1 <= k <= b && g[a].rbStart + g[a].rbLen <= g[k].rbStart
        decreases b - k
      {
        GrantFit(bits, mcs, reqs, offset, end, k);
        GrantNext(bits, mcs, reqs, offset, end, k + 1);
        k := k + 1;
      }
    }
  }

  /** The UL DCI kept for a later retransmission of a random-access grant: new data, no power control. */
  function RachDci(g: RarGrant): UlDci
  {
    UlDci(g.rnti, g.rbStart, g.rbLen, g.mcs, g.tbSize, 1, 0)
  }

  /** The DCIs stored grant after grant in each UE's current process. */
  function StoreGrants(ues: map<int, UlUe>, g: seq<RarGrant>): (r: map<int, UlUe>)
    ensures r.Keys == ues.Keys
    ensures forall x :: x in r ==> r[x] == ues[x].(dci := r[x].dci) && |r[x].dci| == |ues[x].dci|
  {
    if g == [] then ues
    else
      var p := StoreGrants(ues, g[..|g| - 1]);
      var last := g[|g| - 1];
      if last.rnti in p && 0 <= p[last.rnti].currentId < |p[last.rnti].dci| then
        p[last.rnti := p[last.rnti].(dci := p[last.rnti].dci[p[last.rnti].currentId := RachDci(last)])]
      else p
  }

  /** The power records after `cfgUe` for the first n requests: each inserts its RNTI's record unless it has one. */
  function CfgUes(ueUl: map<int, Power.UeInfo>, reqs: seq<RachRequest>, n: int, created: Power.UeInfo): map<int, Power.UeInfo>
    requires 0 <= n <= |reqs|
  {
    if n == 0 then ueUl
    else
      var p := CfgUes(ueUl, reqs, n - 1, created);
      if reqs[n - 1].rnti in p then p else p[reqs[n - 1].rnti := created]
  }

  /**
   * After the first n `cfgUe` calls, the RNTIs with a power record are the
   * old ones and those of the n requests; old records are untouched and
   * every new one is the record `cfgUe` creates.
   */
  lemma {:induction false} CfgUesSpec(ueUl: map<int, Power.UeInfo>, reqs: seq<RachRequest>, n: int, created: Power.UeInfo, x: int)
    requires 0 <= n <= |reqs|
    ensures var r := CfgUes(ueUl, reqs, n, created);
      (x in r <==> x in ueUl || exists k :: 0 <= k < n && reqs[k].rnti == x) &&
      (x in ueUl ==> r[x] == ueUl[x]) &&
      (x in r && x !in ueUl ==> r[x] == created)
  {
    if n > 0 {
      CfgUesSpec(ueUl, reqs, n - 1, created, x);
      if x == reqs[n - 1].rnti {
        assert exists k :: 0 <= k < n && reqs[k].rnti == x;
      } else if exists k :: 0 <= k < n && reqs[k].rnti == x {
        var k :| 0 <= k < n && reqs[k].rnti == x;
        assert k < n - 1;
      }
    }
  }

  /**
   * The loop that looks for the shortest grant: from one RB and no bits,
   * add an RB and take its 16-bit size while the size is short of `est`
   * and the run goes on.
   */
  method GrowGrant(t: seq<seq<int>>, mcs: int, est: int, rbStart: int, end: int) returns (rbLen: int, tb: int)
    requires WellShaped(t) && 0 <= mcs < 29 && 0 <= rbStart && end <= NUM_NPRB && est >= 1
    ensures rbLen == GrantLength(UlBits(t, mcs), est, rbStart, end) && tb == GrantBits(UlBits(t, mcs), est, rbStart, end)
  {
    ghost var bits := UlBits(t, mcs);
    rbLen := 1;
    tb := 0;
    while tb < est && rbStart + rbLen < end
      invariant 1 <= rbLen
      invariant rbLen == 1 ==> tb == 0
      invariant rbLen >= 2 ==>
        rbStart + rbLen <= end && tb == bits[rbLen] && GrowFrom(bits, est, rbStart, end, 2) == GrowFrom(bits, est, rbStart, end, rbLen)
      decreases end - rbLen
    {
      rbLen := rbLen + 1;
      tb := Amc.GetUlTbSizeFromMcs(t, mcs, rbLen) % 0x1_0000;
      UlBitsAt(t, mcs, rbLen);
    }
  }

  /** The loop that writes a grant's RNTI over its RBs of the random-access map. */
  method MarkRun(m: seq<int>, g: RarGrant) returns (r: seq<int>)
    requires 0 <= g.rbStart && g.rbStart + g.rbLen <= |m|
    ensures r == seq(|m|, i requires 0 <= i < |m| => if g.rbStart <= i < g.rbStart + g.rbLen then g.rnti else m[i])
  {
    r := m;
    var j := g.rbStart;
    while j < g.rbStart + g.rbLen
      invariant g.rbStart <= j <= g.rbStart + g.rbLen || (g.rbLen < 0 && j == g.rbStart)
      invariant |r| == |m|
      invariant forall k :: 0 <= k < |r| ==> r[k] == if g.rbStart <= k < j then g.rnti else m[k]
    {
      r := r[j := g.rnti];
      j := j + 1;
    }
  }

  /**
   * One turn of the loop over the random-access requests: the power
   * record `cfgUe` inserts (if the RNTI had none), the shortest grant from
   * `rbStart`, and, when it fits, its RBs marked in the random-access map
   * and, with HARQ on, its UL DCI kept in the UE's current process.
   */
  method RachTurn(t: seq<seq<int>>, mcs: int, req: RachRequest, rbStart: int, end: int, rachMap0: seq<int>,
                  ueUl0: map<int, Power.UeInfo>, created: Power.UeInfo, harqOn: bool, ues0: map<int, UlUe>)
    returns (granted: bool, g: RarGrant, rachMap: seq<int>, ueUl: map<int, Power.UeInfo>, ues: map<int, UlUe>)
    requires WellShaped(t) && 0 <= mcs < 29
    requires 0 <= rbStart <= end <= |rachMap0| <= NUM_NPRB && req.estimatedSize >= 1
    requires harqOn ==> req.rnti in ues0 && 0 <= ues0[req.rnti].currentId < |ues0[req.rnti].dci|
    ensures ueUl == if req.rnti in ueUl0 then ueUl0 else ueUl0[req.rnti := created]
    ensures var bits := UlBits(t, mcs);
      granted == Fits(bits, req.estimatedSize, rbStart, end) &&
      g == RarGrant(req.rnti, rbStart, GrantLength(bits, req.estimatedSize, rbStart, end), mcs,
                    GrantBits(bits, req.estimatedSize, rbStart, end) / 8)
    ensures granted ==> rachMap == MarkGrants(rachMap0, [g])
    ensures ues == if granted && harqOn then StoreGrants(ues0, [g]) else ues0
  {
    var est := req.estimatedSize;
    ueUl := ueUl0;
    if req.rnti !in ueUl {
      ueUl := ueUl[req.rnti := created];
    }
    var rbLen, tb := GrowGrant(t, mcs, est, rbStart, end);
    GrantLengthSpec(UlBits(t, mcs), est, rbStart, end);
    granted := tb >= est;
    g := RarGrant(req.rnti, rbStart, rbLen, mcs, tb / 8);
    rachMap := rachMap0;
    ues := ues0;
    if granted {
      rachMap := MarkRun(rachMap, g);
      if harqOn {
        var u := ues[req.rnti];
        ues := ues[req.rnti := u.(dci := u.dci[u.currentId := RachDci(g)])];
      }
    }
  }

  /** Marking one grant more is marking it over the map of the grants before it. */
  lemma MarkGrantsLast(m: seq<int>, rars: seq<RarGrant>, g: RarGrant)
    ensures MarkGrants(m, rars + [g]) == MarkGrants(MarkGrants(m, rars), [g])
  {
    assert (rars + [g])[..|rars|] == rars;
  }

  /** Storing one grant more is storing it over the processes the grants before it left. */
  lemma StoreGrantsLast(ues: map<int, UlUe>, rars: seq<RarGrant>, g: RarGrant)
    ensures StoreGrants(ues, rars + [g]) == StoreGrants(StoreGrants(ues, rars), [g])
  {
    assert (rars + [g])[..|rars|] == rars;
  }

  /** A turn whose request fits appends its grant and moves the start past it. */
  lemma RunGrant(bits: seq<int>, mcs: int, reqs: seq<RachRequest>, offset: int, end: int, i: int,
                 rars: seq<RarGrant>, next: int)
    requires |bits| == NUM_NPRB + 1 && 0 <= offset <= end <= NUM_NPRB
    requires forall k :: 0 <= k < |reqs| ==> reqs[k].estimatedSize >= 1
    requires 0 <= i < |reqs| && Run(bits, mcs, reqs, i, offset, end) == RachState(rars, next, false)
    requires Fits(bits, reqs[i].estimatedSize, next, end)
    ensures var est := reqs[i].estimatedSize;
      var len := GrantLength(bits, est, next, end);
      Run(bits, mcs, reqs, i + 1, offset, end) ==
        RachState(rars + [RarGrant(reqs[i].rnti, next, len, mcs, GrantBits(bits, est, next, end) / 8)], next + len, false)
  {
  }

  /** The loop ends at request i, which does not fit: i requests were granted, i + 1 tried. */
  lemma {:induction false} RunStopsAt(bits: seq<int>, mcs: int, reqs: seq<RachRequest>, offset: int, end: int, i: int,
                                      rars: seq<RarGrant>, next: int)
    requires |bits| == NUM_NPRB + 1 && 0 <= offset <= end <= NUM_NPRB
    requires forall k :: 0 <= k < |reqs| ==> reqs[k].estimatedSize >= 1
    requires 0 <= i < |reqs| && Run(bits, mcs, reqs, i, offset, end) == RachState(rars, next, false)
    requires !Fits(bits, reqs[i].estimatedSize, next, end)
    ensures Grants(bits, mcs, reqs, offset, end) == rars
    ensures Tried(bits, mcs, reqs, offset, end) == i + 1
  {
    RunPrefix(bits, mcs, reqs, i + 1, |reqs|, offset, end);
    RunCount(bits, mcs, reqs, i, offset, end);
  }

  /** The loop runs through all the requests: every one was tried. */
  lemma {:induction false} RunThrough(bits: seq<int>, mcs: int, reqs: seq<RachRequest>, offset: int, end: int)
    requires |bits| == NUM_NPRB + 1 && 0 <= offset <= end <= NUM_NPRB
    requires forall k :: 0 <= k < |reqs| ==> reqs[k].estimatedSize >= 1
    requires !Run(bits, mcs, reqs, |reqs|, offset, end).stopped
    ensures Tried(bits, mcs, reqs, offset, end) == |reqs|
  {
    RunCount(bits, mcs, reqs, |reqs|, offset, end);
  }

  /** The variables of the loop over the random-access requests. */
  datatype RachVars = RachVars(rars: seq<RarGrant>, rbStart: int, rachMap: seq<int>,
                               ueUl: map<int, Power.UeInfo>, ues: map<int, UlUe>)

  /** What the loop may assume of its start: the run, the request sizes, the HARQ processes. */
  predicate StartOk(start: RachVars, reqs: seq<RachRequest>, end: int, harqOn: bool)
  {
    0 <= start.rbStart <= end <= |start.rachMap| <= NUM_NPRB &&
    (forall k :: 0 <= k < |reqs| ==> reqs[k].estimatedSize >= 1) &&
    (harqOn ==> forall k :: 0 <= k < |reqs| ==> reqs[k].rnti in start.ues) &&
    (harqOn ==> forall x :: x in start.ues ==> 0 <= start.ues[x].currentId < |start.ues[x].dci|)
  }

  /** The loop variables after i turns, all of whose requests fitted. */
  ghost predicate Reached(bits: seq<int>, mcs: int, reqs: seq<RachRequest>, end: int, created: Power.UeInfo, harqOn: bool,
                          start: RachVars, i: int, v: RachVars)
    requires |bits| == NUM_NPRB + 1 && StartOk(start, reqs, end, harqOn)
  {
    0 <= i <= |reqs| &&
    Run(bits, mcs, reqs, i, start.rbStart, end) == RachState(v.rars, v.rbStart, false) &&
    v.rachMap == MarkGrants(start.rachMap, v.rars) &&
    v.ueUl == CfgUes(start.ueUl, reqs, i, created) &&
    v.ues == if harqOn then StoreGrants(start.ues, v.rars) else start.ues
  }

  /** The loop variables once the loop is over. */
  ghost predicate Finished(bits: seq<int>, mcs: int, reqs: seq<RachRequest>, end: int, created: Power.UeInfo, harqOn: bool,
                           start: RachVars, v: RachVars)
    requires |bits| == NUM_NPRB + 1 && StartOk(start, reqs, end, harqOn)
  {
    v.rars == Grants(bits, mcs, reqs, start.rbStart, end) &&
    v.rachMap == MarkGrants(start.rachMap, v.rars) &&
    v.ueUl == CfgUes(start.ueUl, reqs, Tried(bits, mcs, reqs, start.rbStart, end), created) &&
    v.ues == if harqOn then StoreGrants(start.ues, v.rars) else start.ues
  }

  /** A turn that fits: one grant more, and the loop variables reach turn i + 1. */
  lemma ReachedNext(bits: seq<int>, mcs: int, reqs: seq<RachRequest>, end: int, created: Power.UeInfo, harqOn: bool,
                    start: RachVars, i: int, v: RachVars, g: RarGrant, w: RachVars)
    requires |bits| == NUM_NPRB + 1 && StartOk(start, reqs, end, harqOn)
    requires i < |reqs| && Reached(bits, mcs, reqs, end, created, harqOn, start, i, v)
    requires var est := reqs[i].estimatedSize;
      Fits(bits, est, v.rbStart, end) &&
      g == RarGrant(reqs[i].rnti, v.rbStart, GrantLength(bits, est, v.rbStart, end), mcs, GrantBits(bits, est, v.rbStart, end) / 8)
    requires w.rars == v.rars + [g] && w.rbStart == v.rbStart + g.rbLen
    requires w.rachMap == MarkGrants(v.rachMap, [g])
    requires w.ueUl == if reqs[i].rnti in v.ueUl then v.ueUl else v.ueUl[reqs[i].rnti := created]
    requires w.ues == if harqOn then StoreGrants(v.ues, [g]) else v.ues
    ensures Reached(bits, mcs, reqs, end, created, harqOn, start, i + 1, w)
  {
    RunGrant(bits, mcs, reqs, start.rbStart, end, i, v.rars, v.rbStart);
    MarkGrantsLast(start.rachMap, v.rars, g);
    StoreGrantsLast(start.ues, v.rars, g);
  }

  /** A turn that does not fit ends the loop. */
  lemma ReachedStop(bits: seq<int>, mcs: int, reqs: seq<RachRequest>, end: int, created: Power.UeInfo, harqOn: bool,
                    start: RachVars, i: int, v: RachVars, w: RachVars)
    requires |bits| == NUM_NPRB + 1 && StartOk(start, reqs, end, harqOn)
    requires i < |reqs| && Reached(bits, mcs, reqs, end, created, harqOn, start, i, v)
    requires !Fits(bits, reqs[i].estimatedSize, v.rbStart, end)
    requires w == v.(ueUl := if reqs[i].rnti in v.ueUl then v.ueUl else v.ueUl[reqs[i].rnti := created])
    ensures Finished(bits, mcs, reqs, end, created, harqOn, start, w)
  {
    RunStopsAt(bits, mcs, reqs, start.rbStart, end, i, v.rars, v.rbStart);
  }

  /** The loop runs through all the requests. */
  lemma ReachedEnd(bits: seq<int>, mcs: int, reqs: seq<RachRequest>, end: int, created: Power.UeInfo, harqOn: bool,
                   start: RachVars, v: RachVars)
    requires |bits| == NUM_NPRB + 1 && StartOk(start, reqs, end, harqOn)
    requires Reached(bits, mcs, reqs, end, created, harqOn, start, |reqs|, v)
    ensures Finished(bits, mcs, reqs, end, created, harqOn, start, v)
  {
    RunThrough(bits, mcs, reqs, start.rbStart, end);
  }

  /** The body of the loop: turn i either fits and the loop goes on, or it ends the loop. */
  method RachStep(t: seq<seq<int>>, mcs: int, reqs: seq<RachRequest>, end: int, created: Power.UeInfo, harqOn: bool,
                  ghost start: RachVars, i: int, v: RachVars)
    returns (granted: bool, w: RachVars)
    requires WellShaped(t) && 0 <= mcs < 29 && StartOk(start, reqs, end, harqOn)
    requires i < |reqs| && Reached(UlBits(t, mcs), mcs, reqs, end, created, harqOn, start, i, v)
    ensures granted ==> Reached(UlBits(t, mcs), mcs, reqs, end, created, harqOn, start, i + 1, w)
    ensures !granted ==> Finished(UlBits(t, mcs), mcs, reqs, end, created, harqOn, start, w)
  {
    var g, rachMap, ueUl, ues;
    granted, g, rachMap, ueUl, ues := RachTurn(t, mcs, reqs[i], v.rbStart, end, v.rachMap, v.ueUl, created, harqOn, v.ues);
    if !granted {
      w := v.(ueUl := ueUl);
      ReachedStop(UlBits(t, mcs), mcs, reqs, end, created, harqOn, start, i, v, w);
    } else {
      w := RachVars(v.rars + [g], v.rbStart + g.rbLen, rachMap, ueUl, ues);
      ReachedNext(UlBits(t, mcs), mcs, reqs, end, created, harqOn, start, i, v, g, w);
    }
  }

  /**
   * The loop over the random-access requests, from `offset` in the free
   * run that ends at `end`: each request in order gets its turn, and the
   * loop stops at the first request that does not fit. `ueUl` and `ues`
   * are the scheduler's power records and UL HARQ processes.
   */
  method RachLoop(t: seq<seq<int>>, mcs: int, reqs: seq<RachRequest>, offset: int, end: int, rachMap0: seq<int>,
                  ueUl0: map<int, Power.UeInfo>, created: Power.UeInfo, harqOn: bool, ues0: map<int, UlUe>)
    returns (rars: seq<RarGrant>, rachMap: seq<int>, ueUl: map<int, Power.UeInfo>, ues: map<int, UlUe>)
    requires WellShaped(t) && 0 <= mcs < 29
    requires 0 <= offset <= end <= |rachMap0| <= NUM_NPRB
    requires forall i :: 0 <= i < |reqs| ==> reqs[i].estimatedSize >= 1
    requires harqOn ==> forall i :: 0 <= i < |reqs| ==> reqs[i].rnti in ues0
    requires harqOn ==> forall x :: x in ues0 ==> 0 <= ues0[x].currentId < |ues0[x].dci|
    ensures rars == Grants(UlBits(t, mcs), mcs, reqs, offset, end)
    ensures rachMap == MarkGrants(rachMap0, rars)
    ensures ueUl == CfgUes(ueUl0, reqs, Tried(UlBits(t, mcs), mcs, reqs, offset, end), created)
    ensures ues == if harqOn then StoreGrants(ues0, rars) else ues0
  {
    var v := RachVars([], offset, rachMap0, ueUl0, ues0);
    ghost var start := v;
    ghost var bits := UlBits(t, mcs);
    var i, done := 0, false;
    while !done && i < |reqs|
      invariant !done ==> Reached(bits, mcs, reqs, end, created, harqOn, start, i, v)
      invariant done ==> Finished(bits, mcs, reqs, end, created, harqOn, start, v)
      decreases |reqs| - i, !done
    {
      var granted;
      granted, v := RachStep(t, mcs, reqs, end, created, harqOn, start, i, v);
      if granted {
        i := i + 1;
      } else {
        done := true;
      }
    }
    if !done {
      ReachedEnd(bits, mcs, reqs, end, created, harqOn, start, v);
    }
    rars, rachMap, ueUl, ues := v.rars, v.rachMap, v.ueUl, v.ues;
  }

  /** Power records made by `Power.CfgUe` keep the records' invariant. */
  lemma {:induction false} CfgUesOk(ueUl: map<int, Power.UeInfo>, reqs: seq<RachRequest>, n: int, created: Power.UeInfo)
    requires 0 <= n <= |reqs|
    requires forall x :: x in ueUl ==> Power.PowerOk(ueUl[x])
    requires Power.PowerOk(created)
    ensures forall x :: x in CfgUes(ueUl, reqs, n, created) ==> Power.PowerOk(CfgUes(ueUl, reqs, n, created)[x])
  {
    if n > 0 {
      CfgUesOk(ueUl, reqs, n - 1, created);
      var p := CfgUes(ueUl, reqs, n - 1, created);
      var r := CfgUes(ueUl, reqs, n, created);
      assert r == if reqs[n - 1].rnti in p then p else p[reqs[n - 1].rnti := created];
      forall x | x in r
        ensures Power.PowerOk(r[x])
      {
        if x != reqs[n - 1].rnti || reqs[n - 1].rnti in p {
          assert x in p && r[x] == p[x];
          assert Power.PowerOk(p[x]);
        } else {
          assert r[x] == created;
        }
      }
    }
  }

  /** Storing grants that lie inside the bandwidth keeps every UE's processes well formed. */
  lemma {:induction false} StoreGrantsOk(ues: map<int, UlUe>, g: seq<RarGrant>, bandwidth: int)
    requires UlUesOk(ues, bandwidth)
    requires forall k :: 0 <= k < |g| ==> DciFits(RachDci(g[k]), bandwidth)
    ensures UlUesOk(StoreGrants(ues, g), bandwidth)
  {
    if g != [] {
      StoreGrantsOk(ues, g[..|g| - 1], bandwidth);
      assert forall k :: 0 <= k < |g| - 1 ==> g[..|g| - 1][k] == g[k];
    }
  }

  /** Every grant lies inside the run, so its DCI fits the bandwidth. */
  lemma GrantsFit(bits: seq<int>, mcs: int, reqs: seq<RachRequest>, offset: int, end: int, bandwidth: int)
    requires |bits| == NUM_NPRB + 1 && 0 <= offset <= end <= bandwidth && end <= NUM_NPRB
    requires forall i :: 0 <= i < |reqs| ==> reqs[i].estimatedSize >= 1
    ensures var g := Grants(bits, mcs, reqs, offset, end);
      forall k :: 0 <= k < |g| ==> DciFits(RachDci(g[k]), bandwidth)
  {
    var g := Grants(bits, mcs, reqs, offset, end);
    forall k | 0 <= k < |g|
      ensures DciFits(RachDci(g[k]), bandwidth)
    {
      GrantFit(bits, mcs, reqs, offset, end, k);
    }
  }

  /**
   * The random-access stage of the downlink trigger on values: the longest
   * free run of the uplink RBs the frequency reuse leaves, then the loop
   * over the requests from its start, in the random-access map resized to
   * the uplink bandwidth.
   */
  method RachGrants(t: seq<seq<int>>, mcs: int, reqs: seq<RachRequest>, ulRbMap: seq<bool>, rachMap0: seq<int>,
                    ueUl0: map<int, Power.UeInfo>, created: Power.UeInfo, harqOn: bool, ues0: map<int, UlUe>)
    returns (rars: seq<RarGrant>, rachMap: seq<int>, used: int, offset: int, maxLen: int,
             ueUl: map<int, Power.UeInfo>, ues: map<int, UlUe>)
    requires WellShaped(t) && 0 <= mcs < 29 && |ulRbMap| <= NUM_NPRB
    requires forall i :: 0 <= i < |reqs| ==> reqs[i].estimatedSize >= 1
    requires harqOn ==> forall i :: 0 <= i < |reqs| ==> reqs[i].rnti in ues0
    requires UlUesOk(ues0, |ulRbMap|)
    requires (forall x :: x in ueUl0 ==> Power.PowerOk(ueUl0[x])) && Power.PowerOk(created)
    ensures used == CountUsed(ulRbMap) && FirstLongest(ulRbMap, offset, maxLen)
    ensures rars == Grants(UlBits(t, mcs), mcs, reqs, offset, offset + maxLen)
    ensures rachMap == MarkGrants(Resize(rachMap0, |ulRbMap|), rars)
    ensures ueUl == CfgUes(ueUl0, reqs, Tried(UlBits(t, mcs), mcs, reqs, offset, offset + maxLen), created)
    ensures ues == if harqOn then StoreGrants(ues0, rars) else ues0
    ensures forall x :: x in ueUl ==> Power.PowerOk(ueUl[x])
    ensures UlUesOk(ues, |ulRbMap|) && ues.Keys == ues0.Keys
  {
    used, offset, maxLen := LongestFreeRun(ulRbMap);
    rars, rachMap, ueUl, ues := RachLoop(t, mcs, reqs, offset, offset + maxLen, Resize(rachMap0, |ulRbMap|),
                                         ueUl0, created, harqOn, ues0);
    CfgUesOk(ueUl0, reqs, Tried(UlBits(t, mcs), mcs, reqs, offset, offset + maxLen), created);
    GrantsFit(UlBits(t, mcs), mcs, reqs, offset, offset + maxLen, |ulRbMap|);
    StoreGrantsOk(ues0, rars, |ulRbMap|);
  }

  /**
   * The random-access stage acting on the scheduler's state: `cfgUe`
   * inserts into the power records, and the DCI store writes into the UL
   * HARQ processes.
   */
  method RachAllocation(mcs: int, reqs: seq<RachRequest>, ulRbMap: seq<bool>, rachMap0: seq<int>,
                        harq: UlHarqProcesses, pc: UlPowerControl, enable64Qam: bool, volteOn: bool, ttiBundling: bool)
    returns (rars: seq<RarGrant>, rachMap: seq<int>, used: int, offset: int, maxLen: int)
    requires pc.Valid() && harq.Valid() && 0 <= mcs < 29
    requires |ulRbMap| == pc.ulBandwidth == harq.bandwidth
    requires forall i :: 0 <= i < |reqs| ==> reqs[i].estimatedSize >= 1
    requires harq.harqOn ==> forall i :: 0 <= i < |reqs| ==> reqs[i].rnti in harq.ues
    modifies harq, pc
    ensures pc.Valid() && harq.Valid() && pc.ttiCounter == old(pc.ttiCounter)
    ensures used == CountUsed(ulRbMap) && FirstLongest(ulRbMap, offset, maxLen)
    ensures rars == Grants(UlBits(pc.amc.tbs, mcs), mcs, reqs, offset, offset + maxLen)
    ensures rachMap == MarkGrants(Resize(rachMap0, |ulRbMap|), rars)
    ensures pc.ueUl == CfgUes(old(pc.ueUl), reqs, Tried(UlBits(pc.amc.tbs, mcs), mcs, reqs, offset, offset + maxLen),
                              Power.CfgUeAsWritten(mcs, pc.ulBandwidth, pc.ttiCounter, enable64Qam, volteOn, ttiBundling))
    ensures harq.ues == if harq.harqOn then StoreGrants(old(harq.ues), rars) else old(harq.ues)
  {
    var created := Power.CfgUeAsWritten(mcs, pc.ulBandwidth, pc.ttiCounter, enable64Qam, volteOn, ttiBundling);
    var ueUl, ues;
    rars, rachMap, used, offset, maxLen, ueUl, ues :=
      RachGrants(pc.amc.tbs, mcs, reqs, ulRbMap, rachMap0, pc.ueUl, created, harq.harqOn, harq.ues);
    pc.ueUl := ueUl;
    harq.ues := ues;
  }
}
