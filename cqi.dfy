/**
 * The ageing of channel-quality reports in `pw-ff-mac-scheduler.cc`.
 * Each store of reports (the wideband P10 and sub-band A30 downlink
 * reports, and the uplink SINR per resource block) has a timer per RNTI:
 * a new report sets it to `m_cqiTimersThreshold`, every TTI's refresh
 * counts it down by one, and the refresh that finds it at 0 drops the
 * report and its timer.
 */
module CqiAgeing {
  const RNTI_LIMIT := 0x1_0000
  const UINT32 := 0x1_0000_0000

  /** A report store and its timers: the same RNTIs, each timer a count of TTIs. */
  predicate TimersOk<V>(cqi: map<int, V>, timers: map<int, int>)
  {
    cqi.Keys == timers.Keys && forall r :: r in timers ==> 0 <= r < RNTI_LIMIT && timers[r] >= 0
  }

  /** The timers after one refresh: an expired timer goes, every other one counts down by one. */
  function Aged(timers: map<int, int>): (t: map<int, int>)
  {
    map r | r in timers && timers[r] != 0 :: timers[r] - 1
  }

  /** The reports whose RNTI still has a timer. */
  function Kept<V>(cqi: map<int, V>, timers: map<int, int>): (c: map<int, V>)
  {
    map r | r in cqi && r in timers :: cqi[r]
  }

  /** The timers once the refresh walk has passed the RNTIs below `n`. */
  function AgedBelow(timers: map<int, int>, n: int): (t: map<int, int>)
  {
    map r | r in timers && (r >= n || timers[r] != 0) :: if r < n then timers[r] - 1 else timers[r]
  }

  /**
   * The walk over a timer map in RNTI order (`RefreshDlCqiMaps` and
   * `RefreshUlCqiMaps` run it on each store): a timer at 0 is erased
   * together with its report, any other is decremented.
   */
  method RefreshStore<V>(cqi0: map<int, V>, timers0: map<int, int>) returns (cqi: map<int, V>, timers: map<int, int>)
    requires TimersOk(cqi0, timers0)
    ensures timers == Aged(timers0) && cqi == Kept(cqi0, timers)
    ensures TimersOk(cqi, timers)
  {
    cqi, timers := cqi0, timers0;
    for r := 0 to RNTI_LIMIT
      invariant timers == AgedBelow(timers0, r)
      invariant cqi == Kept(cqi0, timers)
    {
      if r in timers {
        if timers[r] == 0 {
          cqi := cqi - {r};
          timers := timers - {r};
        } else {
          timers := timers[r := timers[r] - 1];
        }
      }
    }
    assert timers == Aged(timers0);
  }

  /** The timers after `k` refreshes with no new report. */
  function AgedTimes(timers: map<int, int>, k: nat): map<int, int>
  {
    if k == 0 then timers else Aged(AgedTimes(timers, k - 1))
  }

  /**
   * After `k` refreshes an RNTI still has a timer exactly when its timer
   * was at least `k`, and the timer is then `k` lower: each RNTI's timer
   * runs down on its own, whatever the others do.
   */
  lemma {:induction false} AgedTimesAt(timers: map<int, int>, k: nat, x: int)
    requires forall r :: r in timers ==> timers[r] >= 0
    ensures x in AgedTimes(timers, k) <==> x in timers && timers[x] >= k
    ensures x in AgedTimes(timers, k) ==> AgedTimes(timers, k)[x] == timers[x] - k
  {
    if k > 0 {
      AgedTimesAt(timers, k - 1, x);
    }
  }

  /**
   * A report whose timer was just set to the threshold survives the next
   * `threshold` refreshes and is dropped by the one after them.
   */
  lemma ReportLifetime(timers: map<int, int>, threshold: nat, x: int)
    requires forall r :: r in timers ==> timers[r] >= 0
    requires x in timers && timers[x] == threshold
    ensures forall k: nat :: k <= threshold ==> x in AgedTimes(timers, k) && AgedTimes(timers, k)[x] == threshold - k
    ensures x !in AgedTimes(timers, threshold + 1)
  {
    forall k: nat | k <= threshold
      ensures x in AgedTimes(timers, k) && AgedTimes(timers, k)[x] == threshold - k
    {
      AgedTimesAt(timers, k, x);
    }
    AgedTimesAt(timers, threshold + 1, x);
  }

  /** An element of the report list of `DoSchedDlCqiInfoReq`. */
  datatype CqiReport =
    | P10(rnti: int, wbCqi: seq<int>)
    | A30(rnti: int, higherLayerSelected: seq<seq<int>>)
    | Unknown(rnti: int)

  /** The wideband reports among the first `n` elements, with the CQI of codeword 0. */
  function P10Of(list: seq<CqiReport>, n: nat): (rs: seq<(int, int)>)
    requires n <= |list| && forall i :: 0 <= i < |list| && list[i].P10? ==> |list[i].wbCqi| > 0
  {
    if n == 0 then []
    else if list[n - 1].P10? then P10Of(list, n - 1) + [(list[n - 1].rnti, list[n - 1].wbCqi[0])]
    else P10Of(list, n - 1)
  }

  /** The sub-band reports among the first `n` elements. */
  function A30Of(list: seq<CqiReport>, n: nat): (rs: seq<(int, seq<seq<int>>)>)
    requires n <= |list|
  {
    if n == 0 then []
    else if list[n - 1].A30? then A30Of(list, n - 1) + [(list[n - 1].rnti, list[n - 1].higherLayerSelected)]
    else A30Of(list, n - 1)
  }

  /** A store and its timers after the reports `rs` in order: each stores its value and sets its timer to `threshold`. */
  function Upserts<V>(cqi: map<int, V>, timers: map<int, int>, rs: seq<(int, V)>, threshold: int): (p: (map<int, V>, map<int, int>))
  {
    if rs == [] then (cqi, timers)
    else
      var p := Upserts(cqi, timers, rs[..|rs| - 1], threshold);
      (p.0[rs[|rs| - 1].0 := rs[|rs| - 1].1], p.1[rs[|rs| - 1].0 := threshold])
  }

  /** The position of the last report for `x` in `rs`, or -1. */
  function LastFor<V>(rs: seq<(int, V)>, x: int): (k: int)
    ensures -1 <= k < |rs|
    ensures k >= 0 ==> rs[k].0 == x && forall j :: k < j < |rs| ==> rs[j].0 != x
    ensures k < 0 ==> forall j :: 0 <= j < |rs| ==> rs[j].0 != x
  {
    if rs == [] then -1 else if rs[|rs| - 1].0 == x then |rs| - 1 else LastFor(rs[..|rs| - 1], x)
  }

  /**
   * After the reports `rs`: an RNTI with a report holds the value of its
   * last report and a timer at `threshold`; any other RNTI keeps its
   * entries, or the lack of them.
   */
  lemma {:induction false} UpsertsAt<V>(cqi: map<int, V>, timers: map<int, int>, rs: seq<(int, V)>, threshold: int, x: int)
    ensures var p := Upserts(cqi, timers, rs, threshold);
      LastFor(rs, x) >= 0 ==> x in p.0 && p.0[x] == rs[LastFor(rs, x)].1 && x in p.1 && p.1[x] == threshold
    ensures var p := Upserts(cqi, timers, rs, threshold);
      LastFor(rs, x) < 0 ==> (x in p.0 <==> x in cqi) && (x in cqi ==> p.0[x] == cqi[x]) &&
                             (x in p.1 <==> x in timers) && (x in timers ==> p.1[x] == timers[x])
  {
    if rs != [] {
      UpsertsAt(cqi, timers, rs[..|rs| - 1], threshold, x);
    }
  }

  /** The reports keep the store well formed when every RNTI is in range and the threshold is not negative. */
  lemma {:induction false} UpsertsOk<V>(cqi: map<int, V>, timers: map<int, int>, rs: seq<(int, V)>, threshold: int)
    requires TimersOk(cqi, timers) && threshold >= 0
    requires forall k :: 0 <= k < |rs| ==> 0 <= rs[k].0 < RNTI_LIMIT
    ensures TimersOk(Upserts(cqi, timers, rs, threshold).0, Upserts(cqi, timers, rs, threshold).1)
  {
    if rs != [] {
      UpsertsOk(cqi, timers, rs[..|rs| - 1], threshold);
    }
  }

  lemma UpsertsNext<V>(cqi: map<int, V>, timers: map<int, int>, rs: seq<(int, V)>, x: (int, V), threshold: int)
    ensures Upserts(cqi, timers, rs + [x], threshold) ==
      (Upserts(cqi, timers, rs, threshold).0[x.0 := x.1], Upserts(cqi, timers, rs, threshold).1[x.0 := threshold])
  {
    assert (rs + [x])[..|rs|] == rs;
  }

  /**
   * The sub-band SINR store entry the PUSCH walk creates for a UE first
   * seen at resource block `i`: `noSinr` everywhere but at `i`.
   */
  function NewUlCqi(bw: nat, i: int, sinr: real, noSinr: real): (v: seq<real>)
    ensures |v| == bw && forall j :: 0 <= j < bw ==> v[j] == if j == i then sinr else noSinr
  {
    seq(bw, j => if j == i then sinr else noSinr)
  }

  /**
   * The uplink store and timers once the PUSCH walk has passed the first
   * `n` resource blocks of the allocation map: block `i`'s SINR goes to
   * the UE the block was allocated to, and that UE's timer is set.
   */
  function PuschStored(cqi: map<int, seq<real>>, timers: map<int, int>, alloc: seq<int>, sinr: seq<real>,
                       bw: nat, noSinr: real, threshold: int, n: nat): (p: (map<int, seq<real>>, map<int, int>))
    requires n <= |alloc| <= bw && |alloc| <= |sinr|
    requires forall r :: r in cqi ==> |cqi[r]| == bw
    ensures forall r :: r in p.0 ==> |p.0[r]| == bw
  {
    if n == 0 then (cqi, timers)
    else
      var p := PuschStored(cqi, timers, alloc, sinr, bw, noSinr, threshold, n - 1);
      var r := alloc[n - 1];
      var v := if r in p.0 then p.0[r][n - 1 := sinr[n - 1]] else NewUlCqi(bw, n - 1, sinr[n - 1], noSinr);
      (p.0[r := v], p.1[r := threshold])
  }

  /**
   * After the first `n` blocks, a UE allocated one of them has a timer at
   * `threshold`, and its store holds the SINR of each of its blocks, its
   * old value elsewhere, or `noSinr` where it had none.
   */
  lemma {:induction false} PuschStoredAt(cqi: map<int, seq<real>>, timers: map<int, int>, alloc: seq<int>, sinr: seq<real>,
                                         bw: nat, noSinr: real, threshold: int, n: nat, x: int)
    requires n <= |alloc| <= bw && |alloc| <= |sinr|
    requires forall r :: r in cqi ==> |cqi[r]| == bw
    requires exists i :: 0 <= i < n && alloc[i] == x
    ensures var p := PuschStored(cqi, timers, alloc, sinr, bw, noSinr, threshold, n);
      x in p.0 && x in p.1 && p.1[x] == threshold &&
      forall j :: 0 <= j < bw ==>
        p.0[x][j] == if j < n && alloc[j] == x then sinr[j] else if x in cqi then cqi[x][j] else noSinr
  {
    var p := PuschStored(cqi, timers, alloc, sinr, bw, noSinr, threshold, n);
    if exists i :: 0 <= i < n - 1 && alloc[i] == x {
      PuschStoredAt(cqi, timers, alloc, sinr, bw, noSinr, threshold, n - 1, x);
      var q := PuschStored(cqi, timers, alloc, sinr, bw, noSinr, threshold, n - 1);
      assert x in q.0 && p.1[x] == threshold;
      if alloc[n - 1] == x {
        assert p.0[x] == q.0[x][n - 1 := sinr[n - 1]];
      } else {
        assert p.0[x] == q.0[x];
      }
    } else {
      PuschStoredFirst(cqi, timers, alloc, sinr, bw, noSinr, threshold, n, x);
    }
  }

  /** The step of `PuschStoredAt` where block `n - 1` is the UE's first. */
  lemma PuschStoredFirst(cqi: map<int, seq<real>>, timers: map<int, int>, alloc: seq<int>, sinr: seq<real>,
                         bw: nat, noSinr: real, threshold: int, n: nat, x: int)
    requires 0 < n <= |alloc| <= bw && |alloc| <= |sinr|
    requires forall r :: r in cqi ==> |cqi[r]| == bw
    requires alloc[n - 1] == x && forall i :: 0 <= i < n - 1 ==> alloc[i] != x
    ensures var p := PuschStored(cqi, timers, alloc, sinr, bw, noSinr, threshold, n);
      x in p.0 && x in p.1 && p.1[x] == threshold &&
      forall j :: 0 <= j < bw ==>
        p.0[x][j] == if j < n && alloc[j] == x then sinr[j] else if x in cqi then cqi[x][j] else noSinr
  {
    var p := PuschStored(cqi, timers, alloc, sinr, bw, noSinr, threshold, n);
    var q := PuschStored(cqi, timers, alloc, sinr, bw, noSinr, threshold, n - 1);
    PuschStoredOthers(cqi, timers, alloc, sinr, bw, noSinr, threshold, n - 1, x);
    assert p.0[x] == if x in q.0 then q.0[x][n - 1 := sinr[n - 1]] else NewUlCqi(bw, n - 1, sinr[n - 1], noSinr);
    forall j | 0 <= j < bw
      ensures p.0[x][j] == if j < n && alloc[j] == x then sinr[j] else if x in cqi then cqi[x][j] else noSinr
    {
      if j < n - 1 {
        assert alloc[j] != x;
      }
    }
  }

  /** A UE allocated none of the first `n` blocks keeps its entries, or the lack of them. */
  lemma {:induction false} PuschStoredOthers(cqi: map<int, seq<real>>, timers: map<int, int>, alloc: seq<int>, sinr: seq<real>,
                                             bw: nat, noSinr: real, threshold: int, n: nat, x: int)
    requires n <= |alloc| <= bw && |alloc| <= |sinr|
    requires forall r :: r in cqi ==> |cqi[r]| == bw
    requires forall i :: 0 <= i < n ==> alloc[i] != x
    ensures var p := PuschStored(cqi, timers, alloc, sinr, bw, noSinr, threshold, n);
      (x in p.0 <==> x in cqi) && (x in cqi ==> p.0[x] == cqi[x]) &&
      (x in p.1 <==> x in timers) && (x in timers ==> p.1[x] == timers[x])
  {
    if n > 0 {
      PuschStoredOthers(cqi, timers, alloc, sinr, bw, noSinr, threshold, n - 1, x);
    }
  }

  /** The stores of channel-quality reports and their timers. */
  class CqiReports {
    /** `m_cqiTimersThreshold`: the number of TTIs a report stays valid. */
    const threshold: int
    /** `m_cschedCellConfig.m_ulBandwidth`. */
    const ulBandwidth: nat
    /** `NO_SINR`, from a header that is not part of this model. */
    const noSinr: real
    /** `m_p10CqiRxed` and `m_p10CqiTimers`. */
    var p10Cqi: map<int, int>
    var p10Timers: map<int, int>
    /** `m_a30CqiRxed` (the sub-band CQIs of each RBG) and `m_a30CqiTimers`. */
    var a30Cqi: map<int, seq<seq<int>>>
    var a30Timers: map<int, int>
    /** `m_ueCqi` (the SINR of each uplink resource block) and `m_ueCqiTimers`. */
    var ueCqi: map<int, seq<real>>
    var ueTimers: map<int, int>

    predicate Valid()
      reads this
    {
      0 <= threshold < UINT32 &&
      TimersOk(p10Cqi, p10Timers) && TimersOk(a30Cqi, a30Timers) && TimersOk(ueCqi, ueTimers) &&
      forall r :: r in ueCqi ==> |ueCqi[r]| == ulBandwidth
    }

    constructor (threshold: int, ulBandwidth: nat, noSinr: real)
      requires 0 <= threshold < UINT32
      ensures Valid() && this.threshold == threshold && this.ulBandwidth == ulBandwidth && this.noSinr == noSinr
      ensures p10Cqi == map[] && p10Timers == map[] && a30Cqi == map[] && a30Timers == map[]
      ensures ueCqi == map[] && ueTimers == map[]
    {
      this.threshold := threshold;
      this.ulBandwidth := ulBandwidth;
      this.noSinr := noSinr;
      p10Cqi, p10Timers := map[], map[];
      a30Cqi, a30Timers := map[], map[];
      ueCqi, ueTimers := map[], map[];
    }

    /**
     * `DoSchedDlCqiInfoReq`: each wideband report stores the CQI of
     * codeword 0 and each sub-band report its CQIs, creating the entry or
     * replacing it, and sets the RNTI's timer to the threshold; a report
     * of another type changes nothing. The uplink store is untouched.
     */
    method DlCqiInfo(list: seq<CqiReport>)
      requires Valid()
      requires forall i :: 0 <= i < |list| ==> 0 <= list[i].rnti < RNTI_LIMIT
      requires forall i :: 0 <= i < |list| && list[i].P10? ==> |list[i].wbCqi| > 0
      modifies this
      ensures Valid()
      ensures (p10Cqi, p10Timers) == Upserts(old(p10Cqi), old(p10Timers), P10Of(list, |list|), threshold)
      ensures (a30Cqi, a30Timers) == Upserts(old(a30Cqi), old(a30Timers), A30Of(list, |list|), threshold)
      ensures ueCqi == old(ueCqi) && ueTimers == old(ueTimers)
    {
      var p, pt, a, at := p10Cqi, p10Timers, a30Cqi, a30Timers;
      for i := 0 to |list|
        invariant unchanged(this)
        invariant TimersOk(p, pt) && TimersOk(a, at)
        invariant (p, pt) == Upserts(old(p10Cqi), old(p10Timers), P10Of(list, i), threshold)
        invariant (a, at) == Upserts(old(a30Cqi), old(a30Timers), A30Of(list, i), threshold)
      {
        match list[i]
        case P10(rnti, wbCqi) =>
          UpsertsNext(old(p10Cqi), old(p10Timers), P10Of(list, i), (rnti, wbCqi[0]), threshold);
          // a new RNTI gets both entries, a known one has both replaced
          p, pt := p[rnti := wbCqi[0]], pt[rnti := threshold];
        case A30(rnti, sb) =>
          UpsertsNext(old(a30Cqi), old(a30Timers), A30Of(list, i), (rnti, sb), threshold);
          // a new RNTI gets both entries, a known one has both replaced
          a, at := a[rnti := sb], at[rnti := threshold];
        case Unknown(_) =>
      }
      p10Cqi, p10Timers, a30Cqi, a30Timers := p, pt, a, at;
    }

    /** `RefreshDlCqiMaps`: one TTI of ageing on both downlink stores. */
    method RefreshDlCqiMaps()
      requires Valid()
      modifies this
      ensures Valid()
      ensures p10Timers == Aged(old(p10Timers)) && p10Cqi == Kept(old(p10Cqi), p10Timers)
      ensures a30Timers == Aged(old(a30Timers)) && a30Cqi == Kept(old(a30Cqi), a30Timers)
      ensures ueCqi == old(ueCqi) && ueTimers == old(ueTimers)
    {
      p10Cqi, p10Timers := RefreshStore(p10Cqi, p10Timers);
      a30Cqi, a30Timers := RefreshStore(a30Cqi, a30Timers);
    }

    /** `RefreshUlCqiMaps`: one TTI of ageing on the uplink store. */
    method RefreshUlCqiMaps()
      requires Valid()
      modifies this
      ensures Valid()
      ensures ueTimers == Aged(old(ueTimers)) && ueCqi == Kept(old(ueCqi), ueTimers)
      ensures p10Cqi == old(p10Cqi) && p10Timers == old(p10Timers)
      ensures a30Cqi == old(a30Cqi) && a30Timers == old(a30Timers)
    {
      ghost var before := ueCqi;
      ueCqi, ueTimers := RefreshStore(ueCqi, ueTimers);
      assert forall r :: r in ueCqi ==> r in before && ueCqi[r] == before[r];
    }

    /**
     * The SRS branch of `DoSchedUlCqiInfoReq`: the UE's store takes the
     * SINR of every uplink resource block, creating the entry or replacing
     * its values, and its timer is set to the threshold.
     */
    method UlSrsCqi(rnti: int, sinr: seq<real>)
      requires Valid() && 0 <= rnti < RNTI_LIMIT && |sinr| >= ulBandwidth
      modifies this
      ensures Valid()
      ensures ueCqi == old(ueCqi)[rnti := sinr[..ulBandwidth]] && ueTimers == old(ueTimers)[rnti := threshold]
      ensures p10Cqi == old(p10Cqi) && p10Timers == old(p10Timers)
      ensures a30Cqi == old(a30Cqi) && a30Timers == old(a30Timers)
    {
      if rnti !in ueCqi {
        ueCqi := ueCqi[rnti := sinr[..ulBandwidth]];
        ueTimers := ueTimers[rnti := threshold];
      } else {
        var v := ueCqi[rnti];
        for j := 0 to ulBandwidth
          invariant |v| == ulBandwidth && v[..j] == sinr[..j]
        {
          v := v[j := sinr[j]];
        }
        assert v == v[..ulBandwidth];
        ueCqi := ueCqi[rnti := v];
        ueTimers := ueTimers[rnti := threshold];
      }
    }

    /**
     * The PUSCH branch of `DoSchedUlCqiInfoReq`, given the allocation map
     * of the reported subframe: the SINR of resource block `i` goes to
     * the store of the UE block `i` was allocated to, a UE without an
     * entry gets one filled with `noSinr`, and the UE's timer is set.
     */
    method UlPuschCqi(alloc: seq<int>, sinr: seq<real>)
      requires Valid() && |alloc| <= ulBandwidth && |alloc| <= |sinr|
      requires forall i :: 0 <= i < |alloc| ==> 0 <= alloc[i] < RNTI_LIMIT
      modifies this
      ensures Valid()
      ensures (ueCqi, ueTimers) ==
        PuschStored(old(ueCqi), old(ueTimers), alloc, sinr, ulBandwidth, noSinr, threshold, |alloc|)
      ensures p10Cqi == old(p10Cqi) && p10Timers == old(p10Timers)
      ensures a30Cqi == old(a30Cqi) && a30Timers == old(a30Timers)
    {
      for i := 0 to |alloc|
        invariant Valid()
        invariant (ueCqi, ueTimers) == PuschStored(old(ueCqi), old(ueTimers), alloc, sinr, ulBandwidth, noSinr, threshold, i)
        invariant p10Cqi == old(p10Cqi) && p10Timers == old(p10Timers)
        invariant a30Cqi == old(a30Cqi) && a30Timers == old(a30Timers)
      {
        var r := alloc[i];
        if r !in ueCqi {
          ueCqi := ueCqi[r := NewUlCqi(ulBandwidth, i, sinr[i], noSinr)];
          ueTimers := ueTimers[r := threshold];
        } else {
          ueCqi := ueCqi[r := ueCqi[r][i := sinr[i]]];
          ueTimers := ueTimers[r := threshold];
        }
      }
    }
  }
}
