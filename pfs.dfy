/**
 * Uplink proportional-fair scheduling (round-robin-like configuration):
 * the fairness levels, the additive priority, the choice of the LCG that
 * sets a UE's priority, queue membership, the sub-band request of a UE,
 * the count of UEs with data, and the UE record the configuration
 * request creates.
 */
module Pfs {
  import opened PfsLists
  import opened SchedConfig

  /** `PfsUlLcgInfo`: what a buffer status report says about one LCG. */
  datatype UlLcg = UlLcg(lcgId: int, bs: int, cfgdGbr: bool, effGbr: int, deltaMbr: int, effDeltaMbr: int, br: int)

  // ---------------------------------------------------------------------
  // Fairness levels
  // ---------------------------------------------------------------------

  /** `PfsinitFracPrioInfo`: a level is reached after every `cfgdRate / levels` bytes, rounded up. */
  function PfsInitFracPrioInfo(cfgdRate: int, levels: int): (f: FracPrioInfo)
    requires 0 <= cfgdRate && 0 < levels
    ensures f.achvd == 0 && f.lvls == 0
    ensures cfgdRate <= f.rate * levels && (cfgdRate > 0 ==> (f.rate - 1) * levels < cfgdRate)
  {
    FracPrioInfo(0, 0, SchCeil(cfgdRate, levels))
  }

  /**
   * `PfsUpdFracPrioInfo`: `bytes` more bytes were served. Whole levels
   * are counted, the remainder stays below one level's worth, and the
   * level is capped at `levels - 1`; below the cap no byte is lost.
   */
  function PfsUpdFracPrioInfo(f: FracPrioInfo, bytes: int, levels: int): (r: FracPrioInfo)
    requires 0 < f.rate && 0 <= f.achvd && 0 <= f.lvls && 0 <= bytes && 0 < levels
    ensures r.rate == f.rate
    ensures 0 <= r.achvd < r.rate
    ensures 0 <= r.lvls <= levels - 1
    ensures f.lvls <= r.lvls || f.lvls > levels - 1
    ensures r.lvls < levels - 1 ==> (r.lvls - f.lvls) * r.rate + r.achvd == f.achvd + bytes
  {
    var l := f.lvls + (f.achvd + bytes) / f.rate;
    FracPrioInfo((f.achvd + bytes) % f.rate, if l >= levels then levels - 1 else l, f.rate)
  }

  /** Fairness levels never fall as more bytes are served. */
  lemma FracPrioMonotone(f: FracPrioInfo, b1: int, b2: int, levels: int)
    requires 0 < f.rate && 0 <= f.achvd && 0 <= f.lvls && 0 <= b1 <= b2 && 0 < levels
    ensures PfsUpdFracPrioInfo(f, b1, levels).lvls <= PfsUpdFracPrioInfo(f, b2, levels).lvls
  {
    Amc.DivMonotone(f.achvd + b1, f.achvd + b2, f.rate);
  }

  predicate FracPrioOk(f: FracPrioInfo)
  {
    0 < f.rate && 0 <= f.achvd && 0 <= f.lvls
  }

  /**
   * `PfsUlLcgUpd`: a data indication updates the fairness of the LCG it
   * names (a GBR LCG) or of the UE as a whole.
   */
  function PfsUlLcgUpd(ue: PfsUlUe, lcg: UlLcg, levels: int): (r: PfsUlUe)
    requires 0 < levels && 0 <= lcg.br && 0 <= lcg.effDeltaMbr <= lcg.deltaMbr
    requires lcg.cfgdGbr ==> 0 <= lcg.lcgId < |ue.schedLcgInfo|
    requires lcg.cfgdGbr && !(lcg.effGbr == 0 && lcg.deltaMbr != 0 && lcg.br > lcg.deltaMbr - lcg.effDeltaMbr) ==>
      FracPrioOk(ue.schedLcgInfo[lcg.lcgId].lcgFracPrio)
    requires !lcg.cfgdGbr ==> FracPrioOk(ue.fracPrioInfo)
    ensures r == ue.(fracPrioInfo := r.fracPrioInfo, schedLcgInfo := r.schedLcgInfo)
    ensures !lcg.cfgdGbr ==> r == ue.(fracPrioInfo := PfsUpdFracPrioInfo(ue.fracPrioInfo, lcg.br, levels))
    ensures lcg.cfgdGbr ==> r.fracPrioInfo == ue.fracPrioInfo && |r.schedLcgInfo| == |ue.schedLcgInfo|
    ensures lcg.cfgdGbr ==> forall k :: 0 <= k < |ue.schedLcgInfo| && k != lcg.lcgId ==> r.schedLcgInfo[k] == ue.schedLcgInfo[k]
    ensures lcg.cfgdGbr ==> r.schedLcgInfo[lcg.lcgId].lcgPrio == ue.schedLcgInfo[lcg.lcgId].lcgPrio
    ensures lcg.cfgdGbr && lcg.effGbr == 0 && lcg.deltaMbr != 0 && lcg.br > lcg.deltaMbr - lcg.effDeltaMbr ==>
      r.schedLcgInfo[lcg.lcgId].lcgFracPrio ==
        PfsUpdFracPrioInfo(PfsInitFracPrioInfo(lcg.deltaMbr, levels), lcg.deltaMbr - lcg.effDeltaMbr, levels)
    ensures lcg.cfgdGbr && !(lcg.effGbr == 0 && lcg.deltaMbr != 0 && lcg.br > lcg.deltaMbr - lcg.effDeltaMbr) ==>
      r.schedLcgInfo[lcg.lcgId].lcgFracPrio == PfsUpdFracPrioInfo(ue.schedLcgInfo[lcg.lcgId].lcgFracPrio, lcg.br, levels)
  {
    if lcg.cfgdGbr then
      var info := ue.schedLcgInfo[lcg.lcgId];
      var f :=
        if lcg.effGbr == 0 && lcg.deltaMbr != 0 && lcg.br > lcg.deltaMbr - lcg.effDeltaMbr then
          PfsUpdFracPrioInfo(PfsInitFracPrioInfo(lcg.deltaMbr, levels), lcg.deltaMbr - lcg.effDeltaMbr, levels)
        else PfsUpdFracPrioInfo(info.lcgFracPrio, lcg.br, levels);
      ue.(schedLcgInfo := ue.schedLcgInfo[lcg.lcgId := info.(lcgFracPrio := f)])
    else
      ue.(fracPrioInfo := PfsUpdFracPrioInfo(ue.fracPrioInfo, lcg.br, levels))
  }

  // ---------------------------------------------------------------------
  // Priority
  // ---------------------------------------------------------------------

  /**
   * The round-robin-like priority of `PfsUlUpdPfsPrio`: LCG priorities 0
   * and 9 give 0, otherwise `(32 - 4 lcgPrio) + (29 - cqiPrio) + fair`,
   * kept in `uint32_t`.
   */
  function RrLikePrio(lcgPrio: int, cqiPrio: int, fair: int): (p: int)
    ensures 0 <= p < U32
    ensures lcgPrio == 0 || lcgPrio == 9 ==> p == 0
  {
    if lcgPrio == 0 || lcgPrio == 9 then 0
    else ((32 - lcgPrio * 4) + (29 - cqiPrio) + fair) % U32
  }

  /**
   * Within the ranges the tables give (LCG priority 1..8, CQI priority
   * 0..29, a fairness weight below 2^31) the priority never wraps: a more
   * important LCG, a better CQI priority and a larger fairness weight
   * each give a strictly higher priority.
   */
  lemma RrLikePrioOrder(l1: int, l2: int, c1: int, c2: int, f1: int, f2: int)
    requires 1 <= l1 <= l2 <= 8 && 0 <= c1 <= c2 <= 29 && 0 <= f2 <= f1 < 0x8000_0000
    ensures RrLikePrio(l1, c1, f1) == 61 - 4 * l1 - c1 + f1
    ensures RrLikePrio(l2, c2, f2) <= RrLikePrio(l1, c1, f1)
    ensures (l1 < l2 || c1 < c2 || f2 < f1) ==> RrLikePrio(l2, c2, f2) < RrLikePrio(l1, c1, f1)
  {
  }

  /** The fairness index `PfsUlUpdPfsPrio` uses: the LCG's level for a GBR LCG, else the UE's. */
  function FairIndex(ue: PfsUlUe, lcg: UlLcg): int
    requires lcg.cfgdGbr ==> 0 <= lcg.lcgId < |ue.schedLcgInfo|
  {
    if lcg.cfgdGbr then ue.schedLcgInfo[lcg.lcgId].lcgFracPrio.lvls else ue.fracPrioInfo.lvls
  }

  /**
   * `PfsUlUpdPfsPrio`: the new priority, and whether it changed; nothing
   * else of the record changes.
   */
  function PfsUlUpdPfsPrio(ue: PfsUlUe, lcg: UlLcg, fairPrios: seq<int>): (res: (PfsUlUe, bool))
    requires lcg.cfgdGbr ==> 0 <= lcg.lcgId < |ue.schedLcgInfo|
    requires 0 <= FairIndex(ue, lcg) < |fairPrios|
    ensures res.0 == ue.(pfsPrio := res.0.pfsPrio)
    ensures res.0.pfsPrio == RrLikePrio(ue.lcgPrio, ue.cqiPrio, fairPrios[FairIndex(ue, lcg)])
    ensures res.1 <==> res.0.pfsPrio != ue.pfsPrio
  {
    var p := RrLikePrio(ue.lcgPrio, ue.cqiPrio, fairPrios[FairIndex(ue, lcg)]);
    if p != ue.pfsPrio then (ue.(pfsPrio := p), true) else (ue, false)
  }

  // ---------------------------------------------------------------------
  // The LCG that sets the priority
  // ---------------------------------------------------------------------

  /** The scan of `PfsUlMngUeInQ` over LCGs `k..`, with `acc` the LCG chosen so far. */
  function PrioLcgFrom(lcgs: seq<UlLcg>, k: nat, acc: int): int
    decreases |lcgs| - k
  {
    if k >= |lcgs| then acc
    else if lcgs[k].bs > 0 then
      if lcgs[k].cfgdGbr then (if lcgs[k].effGbr != 0 then k else PrioLcgFrom(lcgs, k + 1, k))
      else (if acc != -1 then acc else k)
    else PrioLcgFrom(lcgs, k + 1, acc)
  }

  /** The loop of `PfsUlMngUeInQ` that picks the LCG (1 and up): -1 when none has data. */
  method SelectPrioLcg(lcgs: seq<UlLcg>) returns (prio: int)
    ensures prio == PrioLcgFrom(lcgs, 1, -1)
  {
    prio := -1;
    var lcg := 1;
    while lcg < |lcgs|
      invariant 1 <= lcg
      invariant PrioLcgFrom(lcgs, lcg, prio) == PrioLcgFrom(lcgs, 1, -1)
      decreases |lcgs| - lcg
    {
      if lcgs[lcg].bs > 0 {
        if lcgs[lcg].cfgdGbr {
          if lcgs[lcg].effGbr != 0 {
            prio := lcg;
            return;
          } else {
            prio := lcg;
          }
        } else {
          if prio != -1 {
            return;
          } else {
            prio := lcg;
            return;
          }
        }
      }
      lcg := lcg + 1;
    }
  }

  predicate PendingGbr(l: UlLcg)
  {
    l.cfgdGbr && l.effGbr == 0
  }

  /**
   * What the scan picks: -1 exactly when no LCG from 1 up has data;
   * otherwise an LCG with data, every earlier LCG with data being a GBR
   * LCG whose guaranteed rate is already met, and a non-GBR LCG only when
   * it is the first with data.
   */
  lemma PrioLcgChoice(lcgs: seq<UlLcg>)
    requires |lcgs| >= 1
    ensures var p := PrioLcgFrom(lcgs, 1, -1);
      (p == -1 <==> forall k :: 1 <= k < |lcgs| ==> lcgs[k].bs <= 0) &&
      (p != -1 ==> 1 <= p < |lcgs| && lcgs[p].bs > 0) &&
      (p != -1 ==> forall k :: 1 <= k < p && lcgs[k].bs > 0 ==> PendingGbr(lcgs[k])) &&
      (p != -1 && !lcgs[p].cfgdGbr ==> forall k :: 1 <= k < p ==> lcgs[k].bs <= 0)
  {
    PrioLcgFromChoice(lcgs, 1, -1);
  }

  lemma {:induction false} PrioLcgFromChoice(lcgs: seq<UlLcg>, k: nat, acc: int)
    requires 1 <= k <= |lcgs|
    requires acc == -1 ==> forall j :: 1 <= j < k ==> lcgs[j].bs <= 0
    requires acc != -1 ==> 1 <= acc < k && lcgs[acc].bs > 0 && PendingGbr(lcgs[acc])
    requires acc != -1 ==> forall j :: acc < j < k ==> lcgs[j].bs <= 0
    requires forall j :: 1 <= j < k && lcgs[j].bs > 0 ==> PendingGbr(lcgs[j])
    ensures var p := PrioLcgFrom(lcgs, k, acc);
      (p == -1 <==> forall j :: 1 <= j < |lcgs| ==> lcgs[j].bs <= 0) &&
      (p != -1 ==> 1 <= p < |lcgs| && lcgs[p].bs > 0) &&
      (p != -1 ==> forall j :: 1 <= j < p && lcgs[j].bs > 0 ==> PendingGbr(lcgs[j])) &&
      (p != -1 && !lcgs[p].cfgdGbr ==> forall j :: 1 <= j < p ==> lcgs[j].bs <= 0)
    decreases |lcgs| - k
  {
    if k < |lcgs| {
      if lcgs[k].bs > 0 {
        if lcgs[k].cfgdGbr && lcgs[k].effGbr == 0 {
          PrioLcgFromChoice(lcgs, k + 1, k);
        }
      } else {
        PrioLcgFromChoice(lcgs, k + 1, acc);
      }
    }
  }

  // ---------------------------------------------------------------------
  // Buffer totals and flows
  // ---------------------------------------------------------------------

  /** The sum of the first `n` buffer sizes. */
  function TotalBs(lcgs: seq<UlLcg>, n: nat): int
    requires n <= |lcgs|
  {
    if n == 0 then 0 else TotalBs(lcgs, n - 1) + lcgs[n - 1].bs
  }

  predicate NonNegBs(lcgs: seq<UlLcg>)
  {
    forall k :: 0 <= k < |lcgs| ==> lcgs[k].bs >= 0
  }

  /** With non-negative buffer sizes the total is zero exactly when every buffer is empty. */
  lemma {:induction false} TotalBsZeroIff(lcgs: seq<UlLcg>, n: nat)
    requires n <= |lcgs| && NonNegBs(lcgs)
    ensures TotalBs(lcgs, n) >= 0
    ensures TotalBs(lcgs, n) == 0 <==> forall k :: 0 <= k < n ==> lcgs[k].bs == 0
  {
    if n > 0 {
      TotalBsZeroIff(lcgs, n - 1);
    }
  }

  /** `UpdEffBsr`'s loop: the `uint32_t` total of the first `maxLcg` buffers. */
  method SumBufferStatus(lcgs: seq<UlLcg>, maxLcg: nat) returns (total: int)
    requires maxLcg <= |lcgs|
    ensures total == TotalBs(lcgs, maxLcg) % U32
  {
    total := 0;
    var i := 0;
    while i < maxLcg
      invariant 0 <= i <= maxLcg
      invariant total == TotalBs(lcgs, i) % U32
    {
      total := (total + lcgs[i].bs) % U32;
      i := i + 1;
    }
  }

  predicate HasData(lcgs: seq<UlLcg>, maxLcg: nat)
    requires maxLcg <= |lcgs|
  {
    exists k :: 0 <= k < maxLcg && lcgs[k].bs > 0
  }

  /** The RNTIs `getNumFlows` counts: some LCG has data and no retransmission was placed this TTI. */
  function FlowRntis(bsr: map<int, seq<UlLcg>>, rntiAllocated: set<int>, maxLcg: nat): set<int>
    requires forall r :: r in bsr ==> maxLcg <= |bsr[r]|
  {
    set r | r in bsr && r !in rntiAllocated && HasData(bsr[r], maxLcg)
  }

  /** RNTIs are `uint16_t` map keys. */
  const RNTI_LIMIT := 0x1_0000

  /** `getNumFlows`: walks the buffer reports in RNTI order. */
  method GetNumFlows(bsr: map<int, seq<UlLcg>>, rntiAllocated: set<int>, maxLcg: nat) returns (n: int)
    requires forall r :: r in bsr ==> 0 <= r < RNTI_LIMIT && maxLcg <= |bsr[r]|
    ensures n == |FlowRntis(bsr, rntiAllocated, maxLcg)|
  {
    n := 0;
    var r := 0;
    while r < RNTI_LIMIT
      invariant 0 <= r <= RNTI_LIMIT
      invariant n == |FlowsBelow(bsr, rntiAllocated, maxLcg, r)|
    {
      var counted := false;
      if r in bsr {
        var lcgs := bsr[r];
        var lcg := 0;
        while lcg < maxLcg
          invariant 0 <= lcg <= maxLcg
          invariant counted <==> r !in rntiAllocated && exists k :: 0 <= k < lcg && lcgs[k].bs > 0
        {
          if lcgs[lcg].bs > 0 && r !in rntiAllocated {
            counted := true;
            break;
          }
          lcg := lcg + 1;
        }
      }
      FlowsBelowStep(bsr, rntiAllocated, maxLcg, r);
      if counted {
        n := n + 1;
      }
      r := r + 1;
    }
    assert FlowsBelow(bsr, rntiAllocated, maxLcg, RNTI_LIMIT) == FlowRntis(bsr, rntiAllocated, maxLcg);
  }

  function FlowsBelow(bsr: map<int, seq<UlLcg>>, rntiAllocated: set<int>, maxLcg: nat, bound: int): set<int>
    requires forall r :: r in bsr ==> maxLcg <= |bsr[r]|
  {
    set r | r in bsr && r < bound && r !in rntiAllocated && HasData(bsr[r], maxLcg)
  }

  lemma FlowsBelowStep(bsr: map<int, seq<UlLcg>>, rntiAllocated: set<int>, maxLcg: nat, r: int)
    requires forall x :: x in bsr ==> maxLcg <= |bsr[x]|
    ensures r in bsr && r !in rntiAllocated && HasData(bsr[r], maxLcg) ==>
      FlowsBelow(bsr, rntiAllocated, maxLcg, r + 1) == FlowsBelow(bsr, rntiAllocated, maxLcg, r) + {r}
    ensures !(r in bsr && r !in rntiAllocated && HasData(bsr[r], maxLcg)) ==>
      FlowsBelow(bsr, rntiAllocated, maxLcg, r + 1) == FlowsBelow(bsr, rntiAllocated, maxLcg, r)
  {
  }

  // ---------------------------------------------------------------------
  // Sub-band request
  // ---------------------------------------------------------------------

  /** `PrbReq`: resource blocks needed for `effBsr` bytes at `eff` bits per 1024 resource elements. */
  function PrbRequest(effBsr: int, eff: int, rePerRb: int): (prb: int)
    requires 0 <= effBsr && 0 < eff && 0 < rePerRb
    ensures 0 <= prb
  {
    var bits := effBsr * 8192;
    Amc.DivMonotone(0, bits, eff);
    Amc.DivMonotone(0, bits / eff, rePerRb);
    bits / eff / rePerRb
  }

  /**
   * `PrbReq` as written, taking the effective buffer size to be a
   * `uint32_t`: the product `effBsr * 1024 * 8` is formed in 32 bits.
   */
  function PrbRequestAsWritten(effBsr: int, eff: int, rePerRb: int): (prb: int)
    requires 0 <= effBsr && 0 < eff && 0 < rePerRb
    ensures effBsr < 0x8_0000 ==> prb == PrbRequest(effBsr, eff, rePerRb)
  {
    (effBsr * 1024 * 8) % U32 / eff / rePerRb
  }

  /**
   * From 2^19 buffered bytes up the 32-bit product wraps: a UE reporting
   * 524288 bytes is taken to need no resource block at all, while one
   * byte less needs hundreds of thousands.
   */
  lemma PrbRequestAsWrittenWraps()
    ensures PrbRequestAsWritten(0x8_0000, 97, 144) == 0
    ensures PrbRequestAsWritten(0x7_FFFF, 97, 144) > 0
    ensures PrbRequest(0x8_0000, 97, 144) > PrbRequest(0x7_FFFF, 97, 144)
  {
    assert 0x8_0000 * 1024 * 8 == U32;
    assert (0x7_FFFF * 1024 * 8) % U32 == U32 - 8192;
  }

  /** `GetNumSbs`: sub-bands for the request, at least one. */
  function GetNumSbs(effBsr: int, eff: int, rePerRb: int, sbsSize: int): (sbs: int)
    requires 0 <= effBsr && 0 < eff && 0 < rePerRb && 0 < sbsSize
    ensures 1 <= sbs
    ensures PrbRequest(effBsr, eff, rePerRb) <= sbs * sbsSize
    ensures sbs > 1 ==> (sbs - 1) * sbsSize < PrbRequest(effBsr, eff, rePerRb)
  {
    var n := SchCeil(PrbRequest(effBsr, eff, rePerRb), sbsSize);
    if n == 0 then 1 else n
  }

  /** More buffered data never asks for fewer sub-bands. */
  lemma GetNumSbsMonotone(b1: int, b2: int, eff: int, rePerRb: int, sbsSize: int)
    requires 0 <= b1 <= b2 && 0 < eff && 0 < rePerRb && 0 < sbsSize
    ensures PrbRequest(b1, eff, rePerRb) <= PrbRequest(b2, eff, rePerRb)
    ensures GetNumSbs(b1, eff, rePerRb, sbsSize) <= GetNumSbs(b2, eff, rePerRb, sbsSize)
  {
    Amc.MulMono(b1, b2, 8192);
    assert b1 * 1024 * 8 <= b2 * 1024 * 8;
    Amc.DivMonotone(b1 * 1024 * 8, b2 * 1024 * 8, eff);
    Amc.DivMonotone(b1 * 1024 * 8 / eff, b2 * 1024 * 8 / eff, rePerRb);
    var p1, p2 := PrbRequest(b1, eff, rePerRb), PrbRequest(b2, eff, rePerRb);
    Amc.DivMonotone(p1 + sbsSize - 1, p2 + sbsSize - 1, sbsSize);
  }
}
