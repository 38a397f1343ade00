/**
 * The uplink PFS state of `pw_PfFfMacScheduler` as an object: the UE
 * records (`PfsUlUes`), the last buffer reports (`m_ceBsr_LCG_Rxed`),
 * the GBR and AMBR queues, the list of UEs to schedule
 * (`toBeSchedInfo`) and the allocation list (`UlAllocInfo`). Each method
 * is proved to move the state as the value-level transitions of
 * `PfsQueues` and `PfsSelect` say.
 */
module PfsUplink {
  import opened PfsLists
  import opened Pfs
  import opened SchedConfig
  import opened PfsQueues
  import opened PfsSelect
  import Amc

  /** LCGs per UE (section 6.1.3.1 of 3GPP TS 36.321 defines four). */
  const MAX_LCG_PER_UE := 4

  /**
   * The cell-wide PFS configuration: the priority ranges of the GBR, MBR
   * and AMBR queues, the number of fairness levels
   * (`PFS_FAIRNESS_FACTOR_LVLS`) and each level's priority, the SRB/DRB
   * priority and the CQI priority of a new UE (`tpPrios[MAX_ITBS]`).
   */
  datatype PfsConf = PfsConf(gbrRange: PfsPrioRange, mbrRange: PfsPrioRange, ambrRange: PfsPrioRange,
                             levels: int, fairPrios: seq<int>, maxSrbDrbPrioval: int, initCqiPrio: int)

  predicate ConfOk(k: PfsConf)
  {
    0 < k.levels <= |k.fairPrios| && 0 <= k.maxSrbDrbPrioval < U32
  }

  /**
   * A UE record: four LCGs, fairness levels within range, a positive
   * UE-wide rate to divide by, a `uint32_t` effective buffer size.
   */
  predicate RecordOk(u: PfsUlUe, levels: int)
  {
    |u.schedLcgInfo| == MAX_LCG_PER_UE &&
    FracPrioOk(u.fracPrioInfo) && u.fracPrioInfo.lvls < levels &&
    0 <= u.effBsr < U32 &&
    forall k :: 0 <= k < |u.schedLcgInfo| ==>
      0 <= u.schedLcgInfo[k].lcgFracPrio.achvd && 0 <= u.schedLcgInfo[k].lcgFracPrio.lvls < levels &&
      0 <= u.schedLcgInfo[k].lcgFracPrio.rate
  }

  /** The unsigned fields of an LCG report; the effective delta-MBR never exceeds the delta-MBR. */
  predicate LcgOk(l: UlLcg)
  {
    l.bs >= 0 && l.br >= 0 && l.effGbr >= 0 && 0 <= l.effDeltaMbr <= l.deltaMbr
  }

  /** A buffer report: one entry per LCG. */
  predicate ReportOk(b: seq<UlLcg>)
  {
    |b| == MAX_LCG_PER_UE && forall j :: 0 <= j < |b| ==> LcgOk(b[j])
  }

  /** A report whose entry `j` is LCG `j`, as the scheduler builds and stores them. */
  predicate Indexed(b: seq<UlLcg>)
  {
    ReportOk(b) && forall j :: 0 <= j < |b| ==> b[j].lcgId == j
  }

  /** Every stored report is indexed. */
  predicate LcgsOk(lcgs: map<int, seq<UlLcg>>)
  {
    forall r :: r in lcgs ==> Indexed(lcgs[r])
  }

  /** The queue invariant, at least 128 queues of each kind, and well-formed records. */
  predicate StateOk(s: QueueState, k: PfsConf)
  {
    QueuesOk(s.ues, s.gbr, s.ambr) && |s.gbr| >= 128 && |s.ambr| >= 128 &&
    forall r :: r in s.ues ==> RecordOk(s.ues[r], k.levels)
  }

  /** Replacing one record by a well-formed one whose queue reference is sound keeps the invariant. */
  lemma ReplaceRecordOk(s: QueueState, rnti: int, u: PfsUlUe, k: PfsConf)
    requires StateOk(s, k) && rnti in s.ues && RecordOk(u, k.levels)
    requires RefOk(u.queue, |s.gbr|, |s.ambr|) && 0 <= u.pfsPrio < U32 && (u.queue != NoQueue ==> u.rnti == rnti)
    ensures StateOk(s.(ues := s.ues[rnti := u]), k)
  {
    RecordUpdateOk(s, rnti, u);
  }

  /** Records that keep their queue fields and stay well formed keep the invariant. */
  lemma SameQueueFieldsOk(s: QueueState, ues: map<int, PfsUlUe>, k: PfsConf)
    requires StateOk(s, k) && ues.Keys == s.ues.Keys
    requires forall r :: r in ues ==>
      ues[r].queue == s.ues[r].queue && ues[r].rnti == s.ues[r].rnti && ues[r].pfsPrio == s.ues[r].pfsPrio &&
      RecordOk(ues[r], k.levels)
    ensures StateOk(s.(ues := ues), k)
  {
    forall i | 0 <= i < |s.gbr| ensures QueueOk(s.gbr[i], ues) { QueueOkSameKeys(s.gbr[i], s.ues, ues); }
    forall i | 0 <= i < |s.ambr| ensures QueueOk(s.ambr[i], ues) { QueueOkSameKeys(s.ambr[i], s.ues, ues); }
  }

  /** `PfsAddUeToPfsQ` keeps the invariant: it changes only the queue fields of one record. */
  lemma AfterAddStateOk(s: QueueState, prioChanged: bool, lcg: UlLcg, rnti: int, k: PfsConf)
    requires StateOk(s, k) && rnti in s.ues
    ensures StateOk(AfterAdd(s, prioChanged, lcg, rnti, k.gbrRange, k.mbrRange, k.ambrRange), k)
  {
    AfterAddOk(s, prioChanged, lcg, rnti, k.gbrRange, k.mbrRange, k.ambrRange);
    var s2 := AfterAdd(s, prioChanged, lcg, rnti, k.gbrRange, k.mbrRange, k.ambrRange);
    assert RecordOk(s2.ues[rnti], k.levels);
  }

  // ---------------------------------------------------------------------
  // Buffer reports
  // ---------------------------------------------------------------------

  /**
   * The buffers a BSR yields: an entry whose LCG id matches its position
   * is taken over (the served bytes are no part of a BSR and are zero),
   * any other becomes an empty LCG with that id.
   */
  function BsrBuffers(report: seq<UlLcg>): (b: seq<UlLcg>)
    requires ReportOk(report)
    ensures Indexed(b) && forall j :: 0 <= j < MAX_LCG_PER_UE ==> b[j].br == 0
    ensures forall j :: 0 <= j < MAX_LCG_PER_UE && report[j].lcgId == j ==> b[j] == report[j].(br := 0)
    ensures forall j :: 0 <= j < MAX_LCG_PER_UE && report[j].lcgId != j ==> b[j] == UlLcg(j, 0, false, 0, 0, 0, 0)
  {
    seq(MAX_LCG_PER_UE, j requires 0 <= j < MAX_LCG_PER_UE =>
      if report[j].lcgId == j then report[j].(br := 0) else UlLcg(j, 0, false, 0, 0, 0, 0))
  }

  /**
   * The buffers a data indication yields: every LCG empty except the one
   * the indication names, copied from it.
   */
  function DataBuffers(report: seq<UlLcg>, lcgId: int): (b: seq<UlLcg>)
    requires ReportOk(report) && 0 <= lcgId < MAX_LCG_PER_UE
    ensures Indexed(b) && b[lcgId] == report[lcgId].(lcgId := lcgId)
    ensures forall j :: 0 <= j < MAX_LCG_PER_UE && j != lcgId ==> b[j] == UlLcg(j, 0, false, 0, 0, 0, 0)
  {
    seq(MAX_LCG_PER_UE, j requires 0 <= j < MAX_LCG_PER_UE =>
      if j == lcgId then report[lcgId].(lcgId := lcgId) else UlLcg(j, 0, false, 0, 0, 0, 0))
  }

  /** `UpdEffBsr` on values: the record's effective buffer size becomes the `uint32_t` total of the report. */
  function WithEffBsr(s: QueueState, rnti: int, bs: seq<UlLcg>, k: PfsConf): (r: QueueState)
    requires StateOk(s, k) && rnti in s.ues && ReportOk(bs)
    ensures StateOk(r, k) && r.gbr == s.gbr && r.ambr == s.ambr && r.ues.Keys == s.ues.Keys
    ensures r.ues[rnti] == s.ues[rnti].(effBsr := TotalBs(bs, MAX_LCG_PER_UE) % U32)
    ensures forall x :: x in s.ues && x != rnti ==> r.ues[x] == s.ues[x]
  {
    var u := s.ues[rnti].(effBsr := TotalBs(bs, MAX_LCG_PER_UE) % U32);
    ReplaceRecordOk(s, rnti, u, k);
    s.(ues := s.ues[rnti := u])
  }

  /**
   * What `PfsUlLcgUpd` divides by: a GBR LCG it updates in place has a
   * positive rate (the UE-wide rate always is).
   */
  predicate LcgUpdDefined(u: PfsUlUe, l: UlLcg)
  {
    (l.cfgdGbr ==> 0 <= l.lcgId < |u.schedLcgInfo|) &&
    (l.cfgdGbr && !(l.effGbr == 0 && l.deltaMbr != 0 && l.br > l.deltaMbr - l.effDeltaMbr) ==>
       FracPrioOk(u.schedLcgInfo[l.lcgId].lcgFracPrio))
  }

  /** `PfsUlLcgUpd` on values: the served bytes update the fairness state of the LCG or of the UE. */
  function WithLcgUpd(s: QueueState, rnti: int, l: UlLcg, k: PfsConf): (r: QueueState)
    requires StateOk(s, k) && rnti in s.ues && LcgOk(l) && LcgUpdDefined(s.ues[rnti], l)
    ensures StateOk(r, k) && r.gbr == s.gbr && r.ambr == s.ambr && r.ues.Keys == s.ues.Keys
    ensures r.ues[rnti] == PfsUlLcgUpd(s.ues[rnti], l, k.levels)
    ensures forall x :: x in s.ues && x != rnti ==> r.ues[x] == s.ues[x]
  {
    var u := PfsUlLcgUpd(s.ues[rnti], l, k.levels);
    ReplaceRecordOk(s, rnti, u, k);
    s.(ues := s.ues[rnti := u])
  }

  /**
   * The CQI-priority update of `DoSchedUlCqiInfoReq` on values: the
   * record's CQI priority becomes the throughput priority of its new TBS
   * index; nothing else changes.
   */
  function WithCqiPrio(s: QueueState, rnti: int, cqiPrio: int, k: PfsConf): (r: QueueState)
    requires StateOk(s, k) && rnti in s.ues
    ensures StateOk(r, k) && r.gbr == s.gbr && r.ambr == s.ambr && r.ues.Keys == s.ues.Keys
    ensures r.ues[rnti] == s.ues[rnti].(cqiPrio := cqiPrio)
    ensures forall x :: x in s.ues && x != rnti ==> r.ues[x] == s.ues[x]
  {
    var u := s.ues[rnti].(cqiPrio := cqiPrio);
    ReplaceRecordOk(s, rnti, u, k);
    s.(ues := s.ues[rnti := u])
  }

  // ---------------------------------------------------------------------
  // Managing a UE in the queues
  // ---------------------------------------------------------------------

  /**
   * `PfsUlMngUeInQ` on values: pending SRB data gives the UE the SRB/DRB
   * priority; then, if some LCG from 1 up has data, the chosen LCG gives
   * the UE its LCG priority and a recomputed priority, and the UE is
   * (re)queued.
   */
  function AfterMngUeInQ(s: QueueState, bs: seq<UlLcg>, rnti: int, k: PfsConf): (r: QueueState)
    requires StateOk(s, k) && ConfOk(k) && rnti in s.ues && Indexed(bs)
    ensures StateOk(r, k) && |r.gbr| == |s.gbr| && |r.ambr| == |s.ambr| && r.ues.Keys == s.ues.Keys
    ensures forall x :: x in s.ues && x != rnti ==> r.ues[x] == s.ues[x]
    ensures r.ues[rnti] == s.ues[rnti].(pfsPrio := r.ues[rnti].pfsPrio, lcgPrio := r.ues[rnti].lcgPrio,
                                        queue := r.ues[rnti].queue, qid := r.ues[rnti].qid, rnti := r.ues[rnti].rnti)
  {
    var ue0 := s.ues[rnti];
    var ue1 := if bs[0].bs > 0 then ue0.(pfsPrio := k.maxSrbDrbPrioval) else ue0;
    ReplaceRecordOk(s, rnti, ue1, k);
    var p := PrioLcgFrom(bs, 1, -1);
    PrioLcgChoice(bs);
    if p == -1 then s.(ues := s.ues[rnti := ue1])
    else
      var ue2 := ue1.(lcgPrio := ue1.schedLcgInfo[p].lcgPrio);
      assert FairIndex(ue2, bs[p]) == FairIndex(ue0, bs[p]);
      var upd := PfsUlUpdPfsPrio(ue2, bs[p], k.fairPrios);
      ReplaceRecordOk(s, rnti, upd.0, k);
      var s1 := s.(ues := s.ues[rnti := upd.0]);
      AfterAddOk(s1, upd.1, bs[p], rnti, k.gbrRange, k.mbrRange, k.ambrRange);
      AfterAddStateOk(s1, upd.1, bs[p], rnti, k);
      AfterAdd(s1, upd.1, bs[p], rnti, k.gbrRange, k.mbrRange, k.ambrRange)
  }

  /**
   * What managing a UE achieves: with no data beyond LCG 0 the queues are
   * untouched; otherwise the chosen LCG has data, the UE's LCG priority is
   * that LCG's, its priority is the round-robin-like priority of that
   * LCG's fairness level, and a UE that was unqueued or changed priority
   * sits in the GBR queue (guaranteed rate owed) or the AMBR queue
   * (nothing owed) that its priority selects.
   */
  lemma MngUeInQEffect(s: QueueState, bs: seq<UlLcg>, rnti: int, k: PfsConf)
    requires StateOk(s, k) && ConfOk(k) && rnti in s.ues && Indexed(bs)
    ensures var r := AfterMngUeInQ(s, bs, rnti, k);
      var ue1 := if bs[0].bs > 0 then s.ues[rnti].(pfsPrio := k.maxSrbDrbPrioval) else s.ues[rnti];
      var p := PrioLcgFrom(bs, 1, -1);
      (p == -1 ==> r.gbr == s.gbr && r.ambr == s.ambr && r.ues[rnti] == ue1) &&
      (p != -1 ==>
         1 <= p < MAX_LCG_PER_UE && bs[p].bs > 0 &&
         r.ues[rnti].lcgPrio == s.ues[rnti].schedLcgInfo[p].lcgPrio &&
         r.ues[rnti].pfsPrio == RrLikePrio(r.ues[rnti].lcgPrio, s.ues[rnti].cqiPrio, k.fairPrios[FairIndex(s.ues[rnti], bs[p])]) &&
         ((ue1.queue == NoQueue || r.ues[rnti].pfsPrio != ue1.pfsPrio) && bs[p].effGbr != 0 ==>
            r.ues[rnti].queue == InGbrQueue(QueueIndex(r.ues[rnti].pfsPrio, k.gbrRange))) &&
         ((ue1.queue == NoQueue || r.ues[rnti].pfsPrio != ue1.pfsPrio) && bs[p].effGbr == 0 && bs[p].effDeltaMbr == 0 ==>
            r.ues[rnti].queue == InAmbrQueue(QueueIndex(r.ues[rnti].pfsPrio, k.ambrRange))))
  {
    var ue0 := s.ues[rnti];
    var ue1 := if bs[0].bs > 0 then ue0.(pfsPrio := k.maxSrbDrbPrioval) else ue0;
    ReplaceRecordOk(s, rnti, ue1, k);
    PrioLcgChoice(bs);
    var p := PrioLcgFrom(bs, 1, -1);
    if p != -1 {
      var ue2 := ue1.(lcgPrio := ue1.schedLcgInfo[p].lcgPrio);
      assert FairIndex(ue2, bs[p]) == FairIndex(ue0, bs[p]);
      var upd := PfsUlUpdPfsPrio(ue2, bs[p], k.fairPrios);
      ReplaceRecordOk(s, rnti, upd.0, k);
      var s1 := s.(ues := s.ues[rnti := upd.0]);
      AfterAddOk(s1, upd.1, bs[p], rnti, k.gbrRange, k.mbrRange, k.ambrRange);
    }
  }

  /**
   * After a CQI report the UE is managed in the queues with its new CQI
   * priority: the priority it is requeued with, when some LCG from 1 up
   * has data, is the round-robin-like priority of that CQI priority, and
   * the record keeps the new CQI priority.
   */
  lemma CqiRequeueEffect(s: QueueState, bs: seq<UlLcg>, rnti: int, cqiPrio: int, k: PfsConf)
    requires StateOk(s, k) && ConfOk(k) && rnti in s.ues && Indexed(bs)
    ensures var r := AfterMngUeInQ(WithCqiPrio(s, rnti, cqiPrio, k), bs, rnti, k);
      var p := PrioLcgFrom(bs, 1, -1);
      r.ues[rnti].cqiPrio == cqiPrio &&
      (p != -1 ==>
         1 <= p < MAX_LCG_PER_UE &&
         r.ues[rnti].pfsPrio == RrLikePrio(r.ues[rnti].lcgPrio, cqiPrio,
                                           k.fairPrios[FairIndex(s.ues[rnti], bs[p])]))
  {
    var s1 := WithCqiPrio(s, rnti, cqiPrio, k);
    MngUeInQEffect(s1, bs, rnti, k);
  }

  // ---------------------------------------------------------------------
  // Logical-channel configuration
  // ---------------------------------------------------------------------

  /** One LC of a logical-channel configuration: its LCG, QCI, bearer type and guaranteed uplink rate. */
  datatype LcConfig = LcConfig(lcg: int, qci: int, isGbr: bool, gbrUl: int)

  /** A fresh PFS record: nothing buffered or queued, the initial CQI priority, UE-wide rate 10000. */
  function NewRecord(cqiPrio: int, levels: int): (u: PfsUlUe)
    requires 0 < levels
    ensures RecordOk(u, levels) && u.queue == NoQueue && u.effBsr == 0 && u.cqiPrio == cqiPrio && u.pfsPrio == 0
    ensures u.fracPrioInfo == PfsInitFracPrioInfo(10000, levels)
  {
    PfsUlUe(0, 0, cqiPrio, 0, 0, 0, 0, 0, 0, PfsInitFracPrioInfo(10000, levels),
            seq(MAX_LCG_PER_UE, _ => SchedLcgInfo(0, 0, FracPrioInfo(0, 0, 0))), NoQueue)
  }

  predicate LcsOk(lcs: seq<LcConfig>)
  {
    forall i :: 0 <= i < |lcs| ==> 0 <= lcs[i].lcg < MAX_LCG_PER_UE && lcs[i].gbrUl >= 0
  }

  /** The LCG information after the first `i` LCs of the configuration loop, all given priority `prio`. */
  function LcConfigSteps(infos: seq<SchedLcgInfo>, lcs: seq<LcConfig>, i: int, prio: int): (r: seq<SchedLcgInfo>)
    requires 0 <= i <= |lcs| && |infos| == MAX_LCG_PER_UE && LcsOk(lcs)
    ensures |r| == MAX_LCG_PER_UE
    ensures forall g :: 0 <= g < MAX_LCG_PER_UE ==> r[g].lcgFracPrio == infos[g].lcgFracPrio
    decreases i
  {
    if i == 0 then infos
    else
      var p := LcConfigSteps(infos, lcs, i - 1, prio);
      var idx := lcs[i - 1].lcg;
      var gbr := if lcs[i - 1].isGbr then p[idx].cfgdGbr + lcs[i - 1].gbrUl else 0;
      p[idx := p[idx].(lcgPrio := prio, cfgdGbr := gbr)]
  }

  /** The guaranteed rates of the first `i` LCs that name LCG `g`. */
  function GbrSum(lcs: seq<LcConfig>, i: int, g: int): int
    requires 0 <= i <= |lcs|
    decreases i
  {
    if i == 0 then 0 else GbrSum(lcs, i - 1, g) + (if lcs[i - 1].lcg == g then lcs[i - 1].gbrUl else 0)
  }

  /**
   * What the configuration loop leaves in LCG `g`: the given priority
   * once some LC names it, its old information while none does; a
   * configured rate that grows by the guaranteed rate of every LC naming
   * it while all of those are GBR, and zero right after a non-GBR one.
   */
  lemma {:induction false} LcConfigStepsEffect(infos: seq<SchedLcgInfo>, lcs: seq<LcConfig>, i: int, prio: int, g: int)
    requires 0 <= i <= |lcs| && |infos| == MAX_LCG_PER_UE && LcsOk(lcs) && 0 <= g < MAX_LCG_PER_UE
    ensures var r := LcConfigSteps(infos, lcs, i, prio);
      ((exists j :: 0 <= j < i && lcs[j].lcg == g) ==> r[g].lcgPrio == prio) &&
      ((forall j :: 0 <= j < i ==> lcs[j].lcg != g) ==> r[g] == infos[g]) &&
      ((forall j :: 0 <= j < i && lcs[j].lcg == g ==> lcs[j].isGbr) ==>
         r[g].cfgdGbr == infos[g].cfgdGbr + GbrSum(lcs, i, g)) &&
      (i > 0 && lcs[i - 1].lcg == g && !lcs[i - 1].isGbr ==> r[g].cfgdGbr == 0)
    decreases i
  {
    if i > 0 {
      LcConfigStepsEffect(infos, lcs, i - 1, prio, g);
      if lcs[i - 1].lcg != g {
        assert (exists j :: 0 <= j < i && lcs[j].lcg == g) ==> (exists j :: 0 <= j < i - 1 && lcs[j].lcg == g);
      }
    }
  }

  /**
   * The effect of the uplink part of `DoCschedLcConfigReq` on the LCG
   * information: the loop, then the LCG of the last LC gets its fairness
   * state from its configured rate, passed as a `uint32_t`.
   */
  function LcConfigured(infos: seq<SchedLcgInfo>, lcs: seq<LcConfig>, prio: int, levels: int): (r: seq<SchedLcgInfo>)
    requires |infos| == MAX_LCG_PER_UE && |lcs| > 0 && 0 < levels && LcsOk(lcs)
    ensures |r| == MAX_LCG_PER_UE
    ensures var last := lcs[|lcs| - 1].lcg;
      r[last].lcgFracPrio.achvd == 0 && r[last].lcgFracPrio.lvls == 0 &&
      r[last].lcgFracPrio == PfsInitFracPrioInfo(LcConfigSteps(infos, lcs, |lcs|, prio)[last].cfgdGbr % U32, levels)
    ensures forall g :: 0 <= g < MAX_LCG_PER_UE && g != lcs[|lcs| - 1].lcg ==> r[g].lcgFracPrio == infos[g].lcgFracPrio
    ensures forall g :: 0 <= g < MAX_LCG_PER_UE ==>
      r[g].lcgPrio == LcConfigSteps(infos, lcs, |lcs|, prio)[g].lcgPrio &&
      r[g].cfgdGbr == LcConfigSteps(infos, lcs, |lcs|, prio)[g].cfgdGbr
  {
    var p := LcConfigSteps(infos, lcs, |lcs|, prio);
    var last := lcs[|lcs| - 1].lcg;
    p[last := p[last].(lcgFracPrio := PfsInitFracPrioInfo(p[last].cfgdGbr % U32, levels))]
  }

  // ---------------------------------------------------------------------
  // The scheduling pass
  // ---------------------------------------------------------------------

  lemma KnownSameKeys(s: seq<PfsUlUe>, u1: map<int, PfsUlUe>, u2: map<int, PfsUlUe>)
    requires KnownRntis(s, u1) && u1.Keys == u2.Keys
    ensures KnownRntis(s, u2)
  {
    forall i | 0 <= i < |s| ensures s[i].rnti in u2 { assert s[i].rnti in u1.Keys; }
  }

  lemma KnownAppend(p: seq<PfsUlUe>, q: seq<PfsUlUe>, ues: map<int, PfsUlUe>)
    requires KnownRntis(p, ues) && KnownRntis(q, ues)
    ensures KnownRntis(p + q, ues)
  {
    forall i | 0 <= i < |p + q| ensures (p + q)[i].rnti in ues {
      if i < |p| { assert (p + q)[i] == p[i]; } else { assert (p + q)[i] == q[i - |p|]; }
    }
  }

  lemma KnownTake(s: seq<PfsUlUe>, n: int, ues: map<int, PfsUlUe>)
    requires KnownRntis(s, ues)
    ensures KnownRntis(Take(s, n), ues)
  {
    if 0 < n < |s| {
      forall i | 0 <= i < n ensures s[..n][i].rnti in ues { assert s[..n][i] == s[i]; }
    }
  }

  /**
   * Visiting at most `rem` entries of one queue `q` and then of `rest` is
   * visiting the first `rem` entries of both, one after the other.
   */
  lemma VisitStep(a: SchedAcc, q: seq<PfsUlUe>, rest: seq<PfsUlUe>, all: seq<PfsUlUe>, rem: int,
                  rntiAllocated: set<int>, c: SbsCtx)
    requires all == q + rest && rem >= 0
    ensures var a' := SchedSeq(a, Take(q, rem), rntiAllocated, c);
      var rem' := rem - |Take(q, rem)|;
      |Take(all, rem)| == |Take(q, rem)| + |Take(rest, rem')| &&
      SchedSeq(a, Take(all, rem), rntiAllocated, c) == SchedSeq(a', Take(rest, rem'), rntiAllocated, c)
  {
    if |q| < rem {
      TakeAppendShort(q, rest, rem);
      SchedSeqAppend(a, q, Take(rest, rem - |q|), rntiAllocated, c);
    } else {
      TakeAppendLong(q, rest, rem);
      assert Take(rest, rem - |Take(q, rem)|) == [];
    }
  }

  /**
   * `ScheduleUplinkUes` on values: the visited queue entries walked from
   * an empty list and zero totals.
   */
  function SchedPass(s: QueueState, remUes: int, rntiAllocated: set<int>, c: SbsCtx): SchedAcc
  {
    SchedSeq(SchedAcc(s.ues, [], 0, 0), Visited(s.gbr, s.ambr, remUes), rntiAllocated, c)
  }

  /**
   * The list the pass yields is sorted by request, agrees with the
   * records, leaves out UEs that got a retransmission and holds at most
   * `remUes` UEs; records change only in their requests.
   */
  lemma SchedPassSound(s: QueueState, remUes: int, rntiAllocated: set<int>, c: SbsCtx)
    requires CtxOk(c, s.ues)
    ensures var r := SchedPass(s, remUes, rntiAllocated, c);
      CtxOk(c, r.ues) && ListOk(r, rntiAllocated, c) && |r.list| <= Max(remUes, 0) &&
      r.ues.Keys == s.ues.Keys && forall x :: x in s.ues ==> r.ues[x] == s.ues[x].(sbsReq := r.ues[x].sbsReq)
  {
    var a := SchedAcc(s.ues, [], 0, 0);
    SchedSeqOk(a, Visited(s.gbr, s.ambr, remUes), rntiAllocated, c);
    SchedSeqFields(a, Visited(s.gbr, s.ambr, remUes), rntiAllocated, c);
  }

  /** The pass keeps the invariant: it changes only the requests in the records. */
  lemma SchedPassOk(s: QueueState, remUes: int, rntiAllocated: set<int>, c: SbsCtx, k: PfsConf)
    requires StateOk(s, k) && CtxOk(c, s.ues)
    ensures StateOk(s.(ues := SchedPass(s, remUes, rntiAllocated, c).ues), k)
  {
    var r := SchedPass(s, remUes, rntiAllocated, c);
    SchedPassSound(s, remUes, rntiAllocated, c);
    forall x | x in r.ues
      ensures r.ues[x].queue == s.ues[x].queue && r.ues[x].rnti == s.ues[x].rnti
      ensures r.ues[x].pfsPrio == s.ues[x].pfsPrio && RecordOk(r.ues[x], k.levels)
    {
      assert r.ues[x] == s.ues[x].(sbsReq := r.ues[x].sbsReq);
    }
    SameQueueFieldsOk(s, r.ues, k);
  }

  /** Every entry asks for at least one sub-band. */
  predicate Requesting(l: seq<PfsUlUe>)
  {
    forall k :: 0 <= k < |l| ==> l[k].sbsReq >= 1
  }

  lemma InsertByShareRequesting(q: seq<PfsUlUe>, e: PfsUlUe)
    requires Requesting(q) && e.sbsReq >= 1
    ensures Requesting(InsertByShare(q, e))
  {
    InsertByShareMultiset(q, e);
    var r := InsertByShare(q, e);
    forall k | 0 <= k < |r| ensures r[k].sbsReq >= 1 {
      assert r[k] in multiset(r);
      assert r[k] in multiset(q) || r[k] == e;
    }
  }

  /** The shares the distribution as written hands out. */
  function WrittenShares(lst: seq<PfsUlUe>, avail: int, tot: int): (r: (seq<int>, SbsCarry))
    requires 0 < |lst|
    ensures |r.0| == |lst|
  {
    SharesAsWritten(lst, |lst|, avail, tot, SbsCarry(0, 0, avail, 0))
  }

  /** The shares the intended distribution hands out. */
  function IntendedShares(lst: seq<PfsUlUe>, avail: int, tot: int): (r: (seq<int>, SbsCarry))
    requires 0 < |lst| && 0 <= avail
    ensures |r.0| == |lst|
  {
    Shares(lst, |lst|, avail, tot, SbsCarry(0, 0, avail, 0))
  }

  /**
   * The intended distribution hands out at most `avail` sub-bands, and
   * no UE more than it asks for.
   */
  lemma IntendedSharesOk(lst: seq<PfsUlUe>, avail: int, tot: int)
    requires 0 < |lst| && 0 <= avail < U32 && Requesting(lst)
    ensures var r := IntendedShares(lst, avail, tot);
      var l := WithShares(lst, r.0);
      0 <= r.1.used <= avail && forall k :: 0 <= k < |l| ==> 0 <= l[k].subbandShare <= l[k].sbsReq
  {
    SharesWithinAvailable(lst, |lst|, avail, tot, SbsCarry(0, 0, avail, 0));
  }

  lemma PrefixUpdate(s: seq<PfsUlUe>, k: int, e: PfsUlUe)
    requires 0 <= k < |s|
    ensures s[k := e][..k] == s[..k] && s[k := e][..k + 1] == s[..k] + [e] && s[k := e][k + 1..] == s[k + 1..]
  {
  }

  /**
   * One step of either distribution loop: entry `k` of the list to
   * schedule gets its share and is then inserted into the allocation
   * list, which stays a list of requesting UEs.
   */
  lemma PlaceShare(lst0: seq<PfsUlUe>, k: int, shares: seq<int>, x: int, alloc0: seq<PfsUlUe>, alloc: seq<PfsUlUe>)
    requires 0 <= k < |lst0| && |shares| == k && Requesting(lst0) && Requesting(alloc)
    requires alloc == InsertAllByShare(alloc0, (WithShares(lst0[..k], shares) + lst0[k..])[..k])
    ensures var p := WithShares(lst0[..k], shares) + lst0[k..];
      var e := p[k].(subbandShare := x);
      p[k] == lst0[k] &&
      p[k := e] == WithShares(lst0[..k + 1], shares + [x]) + lst0[k + 1..] &&
      InsertByShare(alloc, e) == InsertAllByShare(alloc0, p[k := e][..k + 1]) && Requesting(InsertByShare(alloc, e))
  {
    var p := WithShares(lst0[..k], shares) + lst0[k..];
    WithSharesAt(lst0, k, shares);
    WithSharesUpdate(lst0, k, shares, x);
    var e := p[k].(subbandShare := x);
    InsertByShareRequesting(alloc, e);
    PrefixUpdate(p, k, e);
  }

  /** Before entry `k` gets its share, it is still the entry of the original list. */
  lemma WithSharesAt(lst: seq<PfsUlUe>, k: int, shares: seq<int>)
    requires 0 <= k < |lst| && |shares| == k
    ensures (WithShares(lst[..k], shares) + lst[k..])[k] == lst[k]
  {
    assert (WithShares(lst[..k], shares) + lst[k..])[k] == lst[k..][0];
  }

  /** Writing the share of entry `k` extends the written prefix by one. */
  lemma WithSharesUpdate(lst: seq<PfsUlUe>, k: int, shares: seq<int>, x: int)
    requires 0 <= k < |lst| && |shares| == k
    ensures (WithShares(lst[..k], shares) + lst[k..])[k] == lst[k]
    ensures (WithShares(lst[..k], shares) + lst[k..])[k := lst[k].(subbandShare := x)] ==
            WithShares(lst[..k + 1], shares + [x]) + lst[k + 1..]
  {
    var p := WithShares(lst[..k], shares) + lst[k..];
    var q := WithShares(lst[..k + 1], shares + [x]) + lst[k + 1..];
    assert p[k] == lst[k..][0];
    assert |p[k := lst[k].(subbandShare := x)]| == |q|;
    forall j | 0 <= j < |q| ensures p[k := lst[k].(subbandShare := x)][j] == q[j] {
      if j < k {
        assert (shares + [x])[j] == shares[j];
      } else if j > k {
        assert q[j] == lst[k + 1..][j - k - 1];
      }
    }
  }

  /** The shares as written from entry `k` on are entry `k`'s share followed by those from `k + 1` on. */
  lemma SharesAsWrittenAt(lst: seq<PfsUlUe>, k: int, avail: int, tot: int, c: SbsCarry)
    requires 0 <= k < |lst|
    ensures var st := ShareStepAsWritten(lst[k], |lst| - k, |lst|, avail, tot, c);
      SharesAsWritten(lst[k..], |lst|, avail, tot, c) ==
        ([st.0] + SharesAsWritten(lst[k + 1..], |lst|, avail, tot, st.1).0,
         SharesAsWritten(lst[k + 1..], |lst|, avail, tot, st.1).1)
  {
    assert lst[k..][0] == lst[k] && lst[k..][1..] == lst[k + 1..];
  }

  /** The same for the evidently intended shares. */
  lemma SharesAt(lst: seq<PfsUlUe>, k: int, avail: int, tot: int, c: SbsCarry)
    requires 0 <= k < |lst| && 0 <= c.free
    ensures var st := ShareStep(lst[k], |lst| - k, |lst|, avail, tot, c);
      0 <= st.1.free &&
      Shares(lst[k..], |lst|, avail, tot, c) ==
        ([st.0] + Shares(lst[k + 1..], |lst|, avail, tot, st.1).0, Shares(lst[k + 1..], |lst|, avail, tot, st.1).1)
  {
    assert lst[k..][0] == lst[k] && lst[k..][1..] == lst[k + 1..];
  }

  /**
   * The shares of the first `k` entries, and the carries after them, as
   * the distribution loop as written computes them from the front.
   */
  function SharesUpToAsWritten(lst: seq<PfsUlUe>, k: int, avail: int, tot: int, c: SbsCarry): (r: (seq<int>, SbsCarry))
    requires 0 <= k <= |lst|
    ensures |r.0| == k
    decreases k
  {
    if k == 0 then ([], c)
    else
      var p := SharesUpToAsWritten(lst, k - 1, avail, tot, c);
      var st := ShareStepAsWritten(lst[k - 1], |lst| - (k - 1), |lst|, avail, tot, p.1);
      (p.0 + [st.0], st.1)
  }

  /** The same for the evidently intended shares; the free count never goes negative. */
  function SharesUpTo(lst: seq<PfsUlUe>, k: int, avail: int, tot: int, c: SbsCarry): (r: (seq<int>, SbsCarry))
    requires 0 <= k <= |lst| && 0 <= c.free
    ensures |r.0| == k && 0 <= r.1.free
    decreases k
  {
    if k == 0 then ([], c)
    else
      var p := SharesUpTo(lst, k - 1, avail, tot, c);
      var st := ShareStep(lst[k - 1], |lst| - (k - 1), |lst|, avail, tot, p.1);
      (p.0 + [st.0], st.1)
  }

  /** Moving one share from the rest to the shares already handed out. */
  lemma SplitShift(full: (seq<int>, SbsCarry), pre: seq<int>, a: (seq<int>, SbsCarry), x: int, b: (seq<int>, SbsCarry))
    requires full == (pre + a.0, a.1) && a == ([x] + b.0, b.1)
    ensures full == ((pre + [x]) + b.0, b.1)
  {
    assert pre + ([x] + b.0) == (pre + [x]) + b.0;
  }

  /**
   * Computing the shares from the front, as the loop does, agrees with
   * the definition from the back: the first `k` shares followed by the
   * shares of the rest from the carries after them.
   */
  lemma {:induction false} SharesAsWrittenSplit(lst: seq<PfsUlUe>, k: int, avail: int, tot: int, c: SbsCarry)
    requires 0 <= k <= |lst| && 0 < |lst|
    ensures var p := SharesUpToAsWritten(lst, k, avail, tot, c);
      var rest := SharesAsWritten(lst[k..], |lst|, avail, tot, p.1);
      SharesAsWritten(lst, |lst|, avail, tot, c) == (p.0 + rest.0, rest.1)
  {
    if k == 0 {
      assert lst[0..] == lst;
      var all := SharesAsWritten(lst, |lst|, avail, tot, c).0;
      assert [] + all == all;
    } else {
      var p := SharesUpToAsWritten(lst, k - 1, avail, tot, c);
      var st := ShareStepAsWritten(lst[k - 1], |lst| - (k - 1), |lst|, avail, tot, p.1);
      SharesAsWrittenSplit(lst, k - 1, avail, tot, c);
      SharesAsWrittenAt(lst, k - 1, avail, tot, p.1);
      SplitShift(SharesAsWritten(lst, |lst|, avail, tot, c), p.0, SharesAsWritten(lst[k - 1..], |lst|, avail, tot, p.1),
                 st.0, SharesAsWritten(lst[k..], |lst|, avail, tot, st.1));
    }
  }

  /** The same for the evidently intended shares. */
  lemma {:induction false} SharesSplit(lst: seq<PfsUlUe>, k: int, avail: int, tot: int, c: SbsCarry)
    requires 0 <= k <= |lst| && 0 < |lst| && 0 <= c.free
    ensures var p := SharesUpTo(lst, k, avail, tot, c);
      var rest := Shares(lst[k..], |lst|, avail, tot, p.1);
      Shares(lst, |lst|, avail, tot, c) == (p.0 + rest.0, rest.1)
  {
    if k == 0 {
      assert lst[0..] == lst;
      var all := Shares(lst, |lst|, avail, tot, c).0;
      assert [] + all == all;
    } else {
      var p := SharesUpTo(lst, k - 1, avail, tot, c);
      var st := ShareStep(lst[k - 1], |lst| - (k - 1), |lst|, avail, tot, p.1);
      SharesSplit(lst, k - 1, avail, tot, c);
      SharesAt(lst, k - 1, avail, tot, p.1);
      SplitShift(Shares(lst, |lst|, avail, tot, c), p.0, Shares(lst[k - 1..], |lst|, avail, tot, p.1),
                 st.0, Shares(lst[k..], |lst|, avail, tot, st.1));
    }
  }

  /** The loop of `DisributeSbs` as written, on the list to schedule and the allocation list. */
  method SharesLoopAsWritten(lst0: seq<PfsUlUe>, alloc0: seq<PfsUlUe>, avail: int, tot: int)
    returns (lst: seq<PfsUlUe>, alloc: seq<PfsUlUe>, used: int)
    requires 0 < |lst0| && 0 <= avail < U32 && Requesting(lst0) && Requesting(alloc0)
    ensures var r := WrittenShares(lst0, avail, tot); lst == WithShares(lst0, r.0) && used == r.1.used
    ensures alloc == InsertAllByShare(alloc0, lst)
  {
    var n := |lst0|;
    var cr := SbsCarry(0, 0, avail, 0);
    var ueCount := n;
    lst, alloc := lst0, alloc0;
    ghost var shares: seq<int> := [];
    var k := 0;
    while k < n
      invariant 0 <= k <= n && ueCount == n - k && |shares| == k
      invariant lst == WithShares(lst0[..k], shares) + lst0[k..]
      invariant alloc == InsertAllByShare(alloc0, lst[..k]) && Requesting(alloc)
      invariant (shares, cr) == SharesUpToAsWritten(lst0, k, avail, tot, SbsCarry(0, 0, avail, 0))
    {
      WithSharesAt(lst0, k, shares);
      var st := ShareStepAsWritten(lst[k], ueCount, n, avail, tot, cr);
      var e := lst[k].(subbandShare := st.0);
      PlaceShare(lst0, k, shares, st.0, alloc0, alloc);
      lst := lst[k := e];
      alloc := SortAndInsertUeLstSbShare(alloc, e);
      cr := st.1;
      shares := shares + [st.0];
      ueCount := ueCount - 1;
      k := k + 1;
    }
    SharesLoopAsWrittenDone(lst0, avail, tot, shares, cr, lst);
    used := cr.used;
  }

  /** What the loop has computed once it has been through the whole list. */
  lemma SharesLoopAsWrittenDone(lst0: seq<PfsUlUe>, avail: int, tot: int, shares: seq<int>, cr: SbsCarry, lst: seq<PfsUlUe>)
    requires 0 < |lst0| && 0 <= avail && |shares| == |lst0|
    requires (shares, cr) == SharesUpToAsWritten(lst0, |lst0|, avail, tot, SbsCarry(0, 0, avail, 0))
    requires lst == WithShares(lst0[..|lst0|], shares) + lst0[|lst0|..]
    ensures var r := WrittenShares(lst0, avail, tot); lst == WithShares(lst0, r.0) && cr.used == r.1.used
    ensures lst[..|lst0|] == lst
  {
    SharesAsWrittenSplit(lst0, |lst0|, avail, tot, SbsCarry(0, 0, avail, 0));
    assert lst0[|lst0|..] == [] && lst0[..|lst0|] == lst0;
    assert SharesAsWritten(lst0[|lst0|..], |lst0|, avail, tot, cr) == ([], cr);
    assert shares + [] == shares;
  }

  /** The loop of `DisributeSbs` as evidently intended, on the list to schedule and the allocation list. */
  method SharesLoop(lst0: seq<PfsUlUe>, alloc0: seq<PfsUlUe>, avail: int, tot: int)
    returns (lst: seq<PfsUlUe>, alloc: seq<PfsUlUe>, used: int)
    requires 0 < |lst0| && 0 <= avail < U32 && Requesting(lst0) && Requesting(alloc0)
    ensures var r := IntendedShares(lst0, avail, tot); lst == WithShares(lst0, r.0) && used == r.1.used
    ensures alloc == InsertAllByShare(alloc0, lst)
  {
    var n := |lst0|;
    var cr := SbsCarry(0, 0, avail, 0);
    var ueCount := n;
    lst, alloc := lst0, alloc0;
    ghost var shares: seq<int> := [];
    var k := 0;
    while k < n
      invariant 0 <= k <= n && ueCount == n - k && |shares| == k
      invariant lst == WithShares(lst0[..k], shares) + lst0[k..]
      invariant alloc == InsertAllByShare(alloc0, lst[..k]) && Requesting(alloc)
      invariant (shares, cr) == SharesUpTo(lst0, k, avail, tot, SbsCarry(0, 0, avail, 0))
    {
      WithSharesAt(lst0, k, shares);
      var st := ShareStep(lst[k], ueCount, n, avail, tot, cr);
      var e := lst[k].(subbandShare := st.0);
      PlaceShare(lst0, k, shares, st.0, alloc0, alloc);
      lst := lst[k := e];
      alloc := SortAndInsertUeLstSbShare(alloc, e);
      cr := st.1;
      shares := shares + [st.0];
      ueCount := ueCount - 1;
      k := k + 1;
    }
    SharesLoopDone(lst0, avail, tot, shares, cr, lst);
    used := cr.used;
  }

  /** What the loop has computed once it has been through the whole list. */
  lemma SharesLoopDone(lst0: seq<PfsUlUe>, avail: int, tot: int, shares: seq<int>, cr: SbsCarry, lst: seq<PfsUlUe>)
    requires 0 < |lst0| && 0 <= avail && |shares| == |lst0|
    requires (shares, cr) == SharesUpTo(lst0, |lst0|, avail, tot, SbsCarry(0, 0, avail, 0))
    requires lst == WithShares(lst0[..|lst0|], shares) + lst0[|lst0|..]
    ensures var r := IntendedShares(lst0, avail, tot); lst == WithShares(lst0, r.0) && cr.used == r.1.used
    ensures lst[..|lst0|] == lst
  {
    SharesSplit(lst0, |lst0|, avail, tot, SbsCarry(0, 0, avail, 0));
    assert lst0[|lst0|..] == [] && lst0[..|lst0|] == lst0;
    assert Shares(lst0[|lst0|..], |lst0|, avail, tot, cr) == ([], cr);
    assert shares + [] == shares;
  }

  /** Granting entry `k` extends the grants of the entries before it by one step. */
  lemma RbSeqStep(a: RbAcc, s: seq<PfsUlUe>, k: int, c: RbCtx)
    requires RbCtxOk(c) && RbStateOk(a) && AllEntriesOk(s, a, c) && 0 <= k < |s|
    ensures var p := RbSeq(a, s[..k], c);
      RbStateOk(p) && EntryOk(s[k], p, c) && RbSeq(a, s[..k + 1], c) == RbStep(p, s[k], c)
  {
    var s0, s1 := s[..k], s[..k + 1];
    assert s1[..k] == s0 && s1[k] == s[k];
    assert AllEntriesOk(s0, a, c) by {
      forall j | 0 <= j < |s0| ensures EntryOk(s0[j], a, c) { assert s0[j] == s[j]; }
    }
    RbSeqShape(a, s0, c);
  }

  /**
   * `UlRbAlloc` keeps the invariant: it changes only effective buffer
   * sizes, which stay `uint32_t`, and LCG 0 buffers, which stay
   * non-negative.
   */
  lemma RbTouchedOk(s: QueueState, lcgs: map<int, seq<UlLcg>>, r: RbAcc, k: PfsConf)
    requires StateOk(s, k) && LcgsOk(lcgs)
    requires r.ues.Keys == s.ues.Keys && r.lcgs.Keys == lcgs.Keys
    requires RbStateOk(RbAcc(s.ues, lcgs, [])) && RbStateOk(r) && Touched(RbAcc(s.ues, lcgs, []), r)
    ensures StateOk(s.(ues := r.ues), k) && LcgsOk(r.lcgs)
  {
    forall x | x in r.ues
      ensures r.ues[x].queue == s.ues[x].queue && r.ues[x].rnti == s.ues[x].rnti
      ensures r.ues[x].pfsPrio == s.ues[x].pfsPrio && RecordOk(r.ues[x], k.levels)
    {
      assert r.ues[x] == s.ues[x].(effBsr := r.ues[x].effBsr);
    }
    SameQueueFieldsOk(s, r.ues, k);
    forall x | x in r.lcgs ensures Indexed(r.lcgs[x]) {
      var b := r.lcgs[x];
      assert b == lcgs[x][0 := lcgs[x][0].(bs := b[0].bs)];
      forall j | 0 <= j < |b| ensures LcgOk(b[j]) && b[j].lcgId == j {
        if j > 0 { assert b[j] == lcgs[x][j]; }
      }
    }
  }

  /**
   * One entry of `UlRbAlloc` as evidently intended: the resource blocks
   * its share and power allow, at least one when they allow any, and the
   * granted bytes taken off the LCG 0 buffer and the effective buffer
   * size.
   */
  method GrantEntry(ues: map<int, PfsUlUe>, lcgs: map<int, seq<UlLcg>>, e: PfsUlUe, ghost done: seq<PfsUlUe>, c: RbCtx)
    returns (ues': map<int, PfsUlUe>, lcgs': map<int, seq<UlLcg>>, g: PfsUlUe)
    requires RbCtxOk(c) && RbStateOk(RbAcc(ues, lcgs, done)) && EntryOk(e, RbAcc(ues, lcgs, done), c)
    ensures RbAcc(ues', lcgs', done + [g]) == RbStep(RbAcc(ues, lcgs, done), e, c)
  {
    var u := ues[e.rnti];
    var itbs := c.itbsOf[e.rnti];
    var maxrb := Min((e.subbandShare * c.sbsSize) % U32, c.maxRbsOf[e.rnti]);
    var prbReq := PrbRequest(u.effBsr, c.effTbl[itbs], c.rePerRb);
    if prbReq == 0 {
      prbReq := 1;
    }
    var nPrb := if prbReq > maxrb then maxrb else prbReq;
    assert nPrb == Nprb(e, u.effBsr, c);
    var bytes := if nPrb == 0 then 0 else Amc.GetUlTbSizeFromItbs(c.tbs, itbs, nPrb) / 8;
    var l := lcgs[e.rnti];
    if l[0].bs > bytes {
      l := l[0 := l[0].(bs := l[0].bs - bytes)];
    } else {
      l := l[0 := l[0].(bs := 0)];
    }
    lcgs' := lcgs[e.rnti := l];
    ues' := ues[e.rnti := u.(effBsr := (u.effBsr - bytes) % U32)];
    g := e.(nPrb := nPrb);
  }

  /** The loop of `UlRbAlloc`: the entries of the allocation list, in order, are granted their resource blocks. */
  method GrantAll(ues: map<int, PfsUlUe>, lcgs: map<int, seq<UlLcg>>, alloc: seq<PfsUlUe>, c: RbCtx)
    returns (ues': map<int, PfsUlUe>, lcgs': map<int, seq<UlLcg>>, alloc': seq<PfsUlUe>)
    requires RbCtxOk(c) && RbStateOk(RbAcc(ues, lcgs, [])) && AllEntriesOk(alloc, RbAcc(ues, lcgs, []), c)
    ensures RbAcc(ues', lcgs', alloc') == RbSeq(RbAcc(ues, lcgs, []), alloc, c)
  {
    ues', lcgs', alloc' := ues, lcgs, alloc;
    ghost var a0 := RbAcc(ues, lcgs, []);
    var k := 0;
    while k < |alloc'|
      invariant 0 <= k <= |alloc'| == |alloc|
      invariant alloc'[k..] == alloc[k..]
      invariant RbAcc(ues', lcgs', alloc'[..k]) == RbSeq(a0, alloc[..k], c)
    {
      RbSeqStep(a0, alloc, k, c);
      assert alloc'[k] == alloc[k] by { assert alloc'[k..][0] == alloc[k..][0]; }
      ghost var prev := alloc';
      var g;
      ues', lcgs', g := GrantEntry(ues', lcgs', alloc'[k], alloc'[..k], c);
      alloc' := alloc'[k := g];
      PrefixUpdate(prev, k, g);
      k := k + 1;
    }
    assert alloc'[..k] == alloc' && alloc[..k] == alloc;
  }

  class UplinkPfs {
    var ues: map<int, PfsUlUe>
    var lcgs: map<int, seq<UlLcg>>
    var gbrQueues: seq<seq<PfsUlUe>>
    var ambrQueues: seq<seq<PfsUlUe>>
    var toBeSched: seq<PfsUlUe>
    var toBeSchedPrio: int
    var toBeSchedBwReq: int
    var ulAlloc: seq<PfsUlUe>
    var ulAllocPrio: int
    var ulAllocBwReq: int
    const conf: PfsConf

    function State(): QueueState
      reads this
    {
      QueueState(ues, gbrQueues, ambrQueues)
    }

    /** The list of UEs to schedule with its totals, and the records. */
    function Acc(): SchedAcc
      reads this
    {
      SchedAcc(ues, toBeSched, toBeSchedPrio, toBeSchedBwReq)
    }

    predicate Valid()
      reads this
    {
      ConfOk(conf) && StateOk(State(), conf) && LcgsOk(lcgs)
    }

    constructor (conf: PfsConf, numGbrQueues: int, numAmbrQueues: int)
      requires ConfOk(conf) && numGbrQueues >= 128 && numAmbrQueues >= 128
      ensures Valid() && this.conf == conf
      ensures ues == map[] && lcgs == map[] && toBeSched == [] && ulAlloc == []
      ensures |gbrQueues| == numGbrQueues && forall i :: 0 <= i < numGbrQueues ==> gbrQueues[i] == []
      ensures |ambrQueues| == numAmbrQueues && forall i :: 0 <= i < numAmbrQueues ==> ambrQueues[i] == []
    {
      this.conf := conf;
      ues := map[];
      lcgs := map[];
      gbrQueues := seq(numGbrQueues, _ => []);
      ambrQueues := seq(numAmbrQueues, _ => []);
      toBeSched := [];
      toBeSchedPrio := 0;
      toBeSchedBwReq := 0;
      ulAlloc := [];
      ulAllocPrio := 0;
      ulAllocBwReq := 0;
    }

    /**
     * The uplink part of `DoCschedUeConfigReq`: a UE seen for the first
     * time gets a fresh record; a known UE keeps its record.
     */
    method ConfigureUe(rnti: int)
      requires Valid()
      modifies this`ues
      ensures Valid()
      ensures rnti in old(ues) ==> ues == old(ues)
      ensures rnti !in old(ues) ==> ues == old(ues)[rnti := NewRecord(conf.initCqiPrio, conf.levels)]
    {
      if rnti !in ues {
        ues := ues[rnti := NewRecord(conf.initCqiPrio, conf.levels)];
      }
    }

    /**
     * The uplink part of `DoCschedLcConfigReq`: each LC's LCG takes the
     * priority `svcQciPrios` gives the QCI of the FIRST LC; a GBR LC adds
     * its rate to its LCG's configured rate and a non-GBR LC clears it;
     * then the LCG of the LAST LC has its fairness state initialised from
     * its configured rate.
     */
    method ConfigureLcs(rnti: int, lcs: seq<LcConfig>, svcQciPrios: seq<int>)
      requires Valid() && rnti in ues && |lcs| > 0 && LcsOk(lcs)
      requires 1 <= lcs[0].qci <= |svcQciPrios|
      modifies this`ues
      ensures Valid() && ues.Keys == old(ues).Keys
      ensures forall r :: r in ues && r != rnti ==> ues[r] == old(ues)[r]
      ensures ues[rnti] == old(ues)[rnti].(schedLcgInfo :=
        LcConfigured(old(ues)[rnti].schedLcgInfo, lcs, svcQciPrios[lcs[0].qci - 1], conf.levels))
    {
      var infos := ues[rnti].schedLcgInfo;
      var prio := svcQciPrios[lcs[0].qci - 1];
      var i := 0;
      while i < |lcs|
        invariant 0 <= i <= |lcs| && infos == LcConfigSteps(ues[rnti].schedLcgInfo, lcs, i, prio)
      {
        var idx := lcs[i].lcg;
        var gbr := if lcs[i].isGbr then infos[idx].cfgdGbr + lcs[i].gbrUl else 0;
        infos := infos[idx := infos[idx].(lcgPrio := prio, cfgdGbr := gbr)];
        i := i + 1;
      }
      var last := lcs[|lcs| - 1].lcg;
      infos := infos[last := infos[last].(lcgFracPrio := PfsInitFracPrioInfo(infos[last].cfgdGbr % U32, conf.levels))];
      var u := ues[rnti].(schedLcgInfo := infos);
      ReplaceRecordOk(State(), rnti, u, conf);
      ues := ues[rnti := u];
    }

    /** `PfsRmvUeFromQueue`. */
    method RemoveUeFromQueue(rnti: int)
      requires Valid() && rnti in ues
      modifies this`ues, this`gbrQueues, this`ambrQueues
      ensures State() == AfterRemove(old(State()), rnti)
      ensures Valid()
    {
      AfterRemoveOk(State(), rnti);
      var ue := ues[rnti];
      match ue.queue {
        case NoQueue =>
        case InGbrQueue(q) =>
          var r := RemoveFromQueue(gbrQueues[q], ue.rnti);
          gbrQueues := gbrQueues[q := r];
          ues := ues[rnti := ue.(queue := NoQueue)];
        case InAmbrQueue(q) =>
          var r := RemoveFromQueue(ambrQueues[q], ue.rnti);
          ambrQueues := ambrQueues[q := r];
          ues := ues[rnti := ue.(queue := NoQueue)];
      }
    }

    /** `PfsAddUeToPfsQ`, in the round-robin-like configuration. */
    method AddUeToPfsQ(prioChanged: bool, lcg: UlLcg, rnti: int)
      requires Valid() && rnti in ues
      modifies this`ues, this`gbrQueues, this`ambrQueues
      ensures State() == AfterAdd(old(State()), prioChanged, lcg, rnti, conf.gbrRange, conf.mbrRange, conf.ambrRange)
      ensures Valid()
    {
      ghost var s0 := State();
      AfterAddStateOk(s0, prioChanged, lcg, rnti, conf);
      if ues[rnti].queue != NoQueue {
        if !prioChanged {
          return;
        }
        RemoveUeFromQueue(rnti);
      } else {
        assert AfterRemove(s0, rnti) == s0;
      }
      var ue := ues[rnti];
      if lcg.effGbr != 0 {
        var q := UlGetQIdNew(ue.pfsPrio, conf.gbrRange);
        var e := ue.(qid := q, rnti := rnti);
        var nq := PfsUlAddUeToQ(gbrQueues[q], e);
        gbrQueues := gbrQueues[q := nq];
        ues := ues[rnti := e.(queue := InGbrQueue(q))];
      } else if lcg.effDeltaMbr != 0 {
        var q := UlGetQIdNew(ue.pfsPrio, conf.mbrRange);
        ues := ues[rnti := ue.(qid := q)];
      } else {
        var q := UlGetQIdNew(ue.pfsPrio, conf.ambrRange);
        var e := ue.(qid := q, rnti := rnti);
        var nq := PfsUlAddUeToQ(ambrQueues[q], e);
        ambrQueues := ambrQueues[q := nq];
        ues := ues[rnti := e.(queue := InAmbrQueue(q))];
      }
    }

    /** `UpdEffBsr`. */
    method UpdEffBsr(bs: seq<UlLcg>, rnti: int)
      requires Valid() && rnti in ues && ReportOk(bs)
      modifies this`ues
      ensures State() == WithEffBsr(old(State()), rnti, bs, conf)
      ensures Valid()
    {
      var total := SumBufferStatus(bs, MAX_LCG_PER_UE);
      ues := ues[rnti := ues[rnti].(effBsr := total)];
    }

    /** `PfsUlLcgUpd`. */
    method LcgUpd(l: UlLcg, rnti: int)
      requires Valid() && rnti in ues && LcgOk(l) && LcgUpdDefined(ues[rnti], l)
      modifies this`ues
      ensures State() == WithLcgUpd(old(State()), rnti, l, conf)
      ensures Valid()
    {
      var u := ues[rnti];
      if l.cfgdGbr {
        var info := u.schedLcgInfo[l.lcgId];
        if l.effGbr == 0 && l.deltaMbr != 0 && l.br > l.deltaMbr - l.effDeltaMbr {
          var f := PfsInitFracPrioInfo(l.deltaMbr, conf.levels);
          info := info.(lcgFracPrio := PfsUpdFracPrioInfo(f, l.deltaMbr - l.effDeltaMbr, conf.levels));
        } else {
          info := info.(lcgFracPrio := PfsUpdFracPrioInfo(info.lcgFracPrio, l.br, conf.levels));
        }
        u := u.(schedLcgInfo := u.schedLcgInfo[l.lcgId := info]);
      } else {
        u := u.(fracPrioInfo := PfsUpdFracPrioInfo(u.fracPrioInfo, l.br, conf.levels));
      }
      ues := ues[rnti := u];
    }

    /** `PfsUlMngUeInQ`. */
    method MngUeInQ(bs: seq<UlLcg>, rnti: int)
      requires Valid() && rnti in ues && Indexed(bs)
      modifies this`ues, this`gbrQueues, this`ambrQueues
      ensures State() == AfterMngUeInQ(old(State()), bs, rnti, conf)
      ensures Valid()
    {
      ghost var s0 := State();
      var ue := ues[rnti];
      if bs[0].bs > 0 {
        ue := ue.(pfsPrio := conf.maxSrbDrbPrioval);
      }
      var p := SelectPrioLcg(bs);
      PrioLcgChoice(bs);
      if p != -1 {
        ue := ue.(lcgPrio := ue.schedLcgInfo[p].lcgPrio);
        assert FairIndex(ue, bs[p]) == FairIndex(s0.ues[rnti], bs[p]);
        var upd := PfsUlUpdPfsPrio(ue, bs[p], conf.fairPrios);
        ReplaceRecordOk(s0, rnti, upd.0, conf);
        ues := ues[rnti := upd.0];
        AddUeToPfsQ(upd.1, bs[p], rnti);
      } else {
        ReplaceRecordOk(s0, rnti, ue, conf);
        ues := ues[rnti := ue];
      }
    }

    /**
     * The PFS part of an SRS report in `DoSchedUlCqiInfoReq`, after
     * `updItbsUlcqi` has set its TBS index `itbs`: the CQI priority
     * becomes `tpPrios[itbs]` (`PfsUlGetTpPrio`), and a UE with a stored
     * buffer report is managed in the queues with it; one without keeps
     * its queue place.
     */
    method UlCqiPrioUpd(rnti: int, tpPrios: seq<int>, itbs: int)
      requires Valid() && rnti in ues && 0 <= itbs < |tpPrios|
      modifies this`ues, this`gbrQueues, this`ambrQueues
      ensures rnti in lcgs ==>
        State() == AfterMngUeInQ(WithCqiPrio(old(State()), rnti, tpPrios[itbs], conf), lcgs[rnti], rnti, conf)
      ensures rnti !in lcgs ==> State() == WithCqiPrio(old(State()), rnti, tpPrios[itbs], conf)
      ensures Valid()
    {
      ghost var s0 := State();
      var u := ues[rnti].(cqiPrio := tpPrios[itbs]);
      ReplaceRecordOk(s0, rnti, u, conf);
      ues := ues[rnti := u];
      if rnti in lcgs {
        MngUeInQ(lcgs[rnti], rnti);
      }
    }

    /**
     * A BSR control element of `DoSchedUlMacCtrlInfoReq`: the report
     * becomes the UE's stored buffers, the effective buffer size their
     * total, and the UE is managed in the queues.
     */
    method ReceiveBsr(report: seq<UlLcg>, rnti: int)
      requires Valid() && rnti in ues && ReportOk(report)
      modifies this`lcgs, this`ues, this`gbrQueues, this`ambrQueues
      ensures lcgs == old(lcgs)[rnti := BsrBuffers(report)]
      ensures State() == AfterMngUeInQ(WithEffBsr(old(State()), rnti, BsrBuffers(report), conf), BsrBuffers(report), rnti, conf)
      ensures Valid()
    {
      var b: seq<UlLcg> := [];
      var j := 0;
      while j < MAX_LCG_PER_UE
        invariant 0 <= j <= MAX_LCG_PER_UE && b == BsrBuffers(report)[..j]
      {
        if report[j].lcgId == j {
          b := b + [report[j].(br := 0)];
        } else {
          b := b + [UlLcg(j, 0, false, 0, 0, 0, 0)];
        }
        j := j + 1;
      }
      assert b == BsrBuffers(report);
      lcgs := lcgs[rnti := b];
      UpdEffBsr(b, rnti);
      MngUeInQ(b, rnti);
    }

    /**
     * A data indication of `DoSchedUlMacCtrlInfoReq`: the LCG named by the
     * report's entry `mType` is copied into otherwise empty buffers; the
     * fairness update is given the buffers' entry `mType`; the stored
     * report takes over that one LCG (or all the buffers, for a first
     * report); the effective buffer size becomes the buffers' total, and
     * the UE is managed in the queues.
     */
    method ReceiveDataIndication(report: seq<UlLcg>, mType: int, rnti: int)
      requires Valid() && rnti in ues && ReportOk(report) && 0 <= mType < MAX_LCG_PER_UE
      requires 0 <= report[mType].lcgId < MAX_LCG_PER_UE
      requires LcgUpdDefined(ues[rnti], DataBuffers(report, report[mType].lcgId)[mType])
      modifies this`lcgs, this`ues, this`gbrQueues, this`ambrQueues
      ensures var id := report[mType].lcgId; var b := DataBuffers(report, id);
        lcgs == old(lcgs)[rnti := if rnti in old(lcgs) then old(lcgs)[rnti][id := b[id]] else b]
      ensures var b := DataBuffers(report, report[mType].lcgId);
        State() == AfterMngUeInQ(WithEffBsr(WithLcgUpd(old(State()), rnti, b[mType], conf), rnti, b, conf), b, rnti, conf)
      ensures Valid()
    {
      var lcgId := report[mType].lcgId;
      var b := seq(MAX_LCG_PER_UE, i => UlLcg(i, 0, false, 0, 0, 0, 0));
      b := b[lcgId := report[lcgId].(lcgId := lcgId)];
      assert b == DataBuffers(report, lcgId);
      LcgUpd(b[mType], rnti);
      if rnti !in lcgs {
        lcgs := lcgs[rnti := b];
      } else {
        lcgs := lcgs[rnti := lcgs[rnti][lcgId := b[lcgId]]];
      }
      UpdEffBsr(b, rnti);
      MngUeInQ(b, rnti);
    }

    /** `PfsUlSchedUeForDat`; like `SchedStep`, it skips an entry without a record. */
    method SchedUeForDat(e: PfsUlUe, rntiAllocated: set<int>, c: SbsCtx)
      requires CtxOk(c, ues)
      modifies this`ues, this`toBeSched, this`toBeSchedPrio, this`toBeSchedBwReq
      ensures Acc() == SchedStep(old(Acc()), e, rntiAllocated, c) && CtxOk(c, ues)
    {
      if e.rnti in rntiAllocated || e.rnti !in ues {
        return;
      }
      CtxOkDefined(c, ues, e.rnti);
      SchedStepFields(Acc(), e, rntiAllocated, c);
      var u := ues[e.rnti];
      var req := GetNumSbs(u.effBsr, c.effTbl[c.itbsOf[u.rnti]], c.rePerRb, c.sbsSize);
      toBeSchedPrio := (toBeSchedPrio + u.pfsPrio) % U32;
      toBeSchedBwReq := (toBeSchedBwReq + req) % U32;
      ues := ues[e.rnti := u.(sbsReq := req)];
      toBeSched := SortAndInsertUeLst(toBeSched, e.(sbsReq := req), req);
    }

    /** `PfsUlSchedData`: visits up to `remUes` entries of `queue` and returns how many may still be visited. */
    method SchedData(queue: seq<PfsUlUe>, remUes: int, rntiAllocated: set<int>, c: SbsCtx) returns (rem: int)
      requires CtxOk(c, ues) && 0 <= remUes
      modifies this`ues, this`toBeSched, this`toBeSchedPrio, this`toBeSchedBwReq
      ensures rem == remUes - |Take(queue, remUes)|
      ensures Acc() == SchedSeq(old(Acc()), Take(queue, remUes), rntiAllocated, c) && CtxOk(c, ues)
    {
      rem := remUes;
      var k := 0;
      while k < |queue| && rem > 0
        invariant 0 <= k <= |queue| && rem == remUes - k && rem >= 0 && CtxOk(c, ues)
        invariant Acc() == SchedSeq(old(Acc()), queue[..k], rntiAllocated, c)
      {
        assert queue[..k + 1][..k] == queue[..k];
        SchedUeForDat(queue[k], rntiAllocated, c);
        k := k + 1;
        rem := rem - 1;
      }
      assert queue[..k] == Take(queue, remUes);
    }

    /**
     * The queue loop of `ScheduleUplinkUes` over one kind of queue: the
     * queues `qs` from the highest index down, `remUes` entries at most.
     */
    method SchedQueues(qs: seq<seq<PfsUlUe>>, remUes: int, rntiAllocated: set<int>, c: SbsCtx) returns (rem: int)
      requires CtxOk(c, ues) && 0 <= remUes
      modifies this`ues, this`toBeSched, this`toBeSchedPrio, this`toBeSchedBwReq
      ensures rem == remUes - |Take(FlattenDown(qs, |qs|), remUes)|
      ensures Acc() == SchedSeq(old(Acc()), Take(FlattenDown(qs, |qs|), remUes), rntiAllocated, c) && CtxOk(c, ues)
    {
      ghost var a0 := Acc();
      ghost var all := FlattenDown(qs, |qs|);
      ghost var pending := all;
      rem := remUes;
      var i := |qs| - 1;
      while i >= 0 && rem > 0
        invariant -1 <= i < |qs| && 0 <= rem && pending == FlattenDown(qs, i + 1)
        invariant CtxOk(c, ues)
        invariant remUes - |Take(all, remUes)| == rem - |Take(pending, rem)|
        invariant SchedSeq(a0, Take(all, remUes), rntiAllocated, c) == SchedSeq(Acc(), Take(pending, rem), rntiAllocated, c)
      {
        ghost var rest := FlattenDown(qs, i);
        assert pending == qs[i] + rest;
        VisitStep(Acc(), qs[i], rest, pending, rem, rntiAllocated, c);
        ghost var rem0 := rem;
        rem := SchedData(qs[i], rem, rntiAllocated, c);
        assert |Take(pending, rem0)| == (rem0 - rem) + |Take(rest, rem)|;
        pending := rest;
        i := i - 1;
      }
      assert Take(pending, rem) == [] by {
        if rem > 0 { assert i == -1 && pending == []; }
      }
    }

    /** The two queue loops of `ScheduleUplinkUes`: GBR queues first, then AMBR queues. */
    method SchedAllQueues(gbr: seq<seq<PfsUlUe>>, ambr: seq<seq<PfsUlUe>>, remUes: int, rntiAllocated: set<int>, c: SbsCtx)
      requires CtxOk(c, ues) && 0 <= remUes
      modifies this`ues, this`toBeSched, this`toBeSchedPrio, this`toBeSchedBwReq
      ensures Acc() == SchedSeq(old(Acc()), Visited(gbr, ambr, remUes), rntiAllocated, c)
    {
      ghost var g, m := FlattenDown(gbr, |gbr|), FlattenDown(ambr, |ambr|);
      VisitStep(Acc(), g, m, g + m, remUes, rntiAllocated, c);
      var rem := SchedQueues(gbr, remUes, rntiAllocated, c);
      rem := SchedQueues(ambr, rem, rntiAllocated, c);
    }

    /**
     * `ScheduleUplinkUes`: both lists and their totals are cleared, then
     * the GBR queues and after them the AMBR queues are visited from the
     * highest index down, `remUes` entries at most.
     */
    method ScheduleUplinkUes(remUes: int, rntiAllocated: set<int>, c: SbsCtx)
      requires Valid() && CtxOk(c, ues) && 0 <= remUes < 0x100
      modifies this`ues, this`toBeSched, this`toBeSchedPrio, this`toBeSchedBwReq
      modifies this`ulAlloc, this`ulAllocPrio, this`ulAllocBwReq
      ensures Valid()
      ensures Acc() == SchedPass(old(State()), remUes, rntiAllocated, c)
      ensures ulAlloc == [] && ulAllocPrio == 0 && ulAllocBwReq == 0
    {
      ClearLists();
      SchedFromEmpty(remUes, rntiAllocated, c);
    }

    /** The pass of `ScheduleUplinkUes` over both kinds of queue, once the list is empty. */
    method SchedFromEmpty(remUes: int, rntiAllocated: set<int>, c: SbsCtx)
      requires Valid() && CtxOk(c, ues) && 0 <= remUes
      requires toBeSched == [] && toBeSchedPrio == 0 && toBeSchedBwReq == 0
      modifies this`ues, this`toBeSched, this`toBeSchedPrio, this`toBeSchedBwReq
      ensures Valid()
      ensures Acc() == SchedPass(old(State()), remUes, rntiAllocated, c)
    {
      ghost var s0 := State();
      assert Acc() == SchedAcc(s0.ues, [], 0, 0);
      SchedPassOk(s0, remUes, rntiAllocated, c, conf);
      SchedAllQueues(gbrQueues, ambrQueues, remUes, rntiAllocated, c);
      assert Acc() == SchedPass(s0, remUes, rntiAllocated, c);
      assert State() == s0.(ues := Acc().ues);
    }

    /** Both lists of `ScheduleUplinkUes` and their totals, cleared. */
    method ClearLists()
      modifies this`toBeSched, this`toBeSchedPrio, this`toBeSchedBwReq
      modifies this`ulAlloc, this`ulAllocPrio, this`ulAllocBwReq
      ensures toBeSched == [] && toBeSchedPrio == 0 && toBeSchedBwReq == 0
      ensures ulAlloc == [] && ulAllocPrio == 0 && ulAllocBwReq == 0
    {
      toBeSchedPrio, toBeSchedBwReq, ulAllocPrio, ulAllocBwReq := 0, 0, 0, 0;
      toBeSched, ulAlloc := [], [];
    }

    /**
     * `DisributeSbs` as written: every UE but the last gets its
     * priority's part of `avail` sub-bands plus the carries, at least one
     * and at most its request; the last gets what the free count says is
     * left; each UE, with its share, goes into the allocation list. The
     * result is the number of sub-bands handed out.
     */
    method DisributeSbsAsWritten(avail: int) returns (used: int)
      requires 0 <= avail < U32 && |toBeSched| < 0x1_0000
      requires Requesting(toBeSched) && Requesting(ulAlloc)
      modifies this`toBeSched, this`ulAlloc
      ensures |old(toBeSched)| == 0 ==> toBeSched == [] && ulAlloc == old(ulAlloc) && used == 0
      ensures |old(toBeSched)| > 0 ==>
        var r := WrittenShares(old(toBeSched), avail, toBeSchedPrio);
        toBeSched == WithShares(old(toBeSched), r.0) && used == r.1.used
      ensures ulAlloc == InsertAllByShare(old(ulAlloc), toBeSched)
    {
      if |toBeSched| == 0 {
        return 0;
      }
      toBeSched, ulAlloc, used := SharesLoopAsWritten(toBeSched, ulAlloc, avail, toBeSchedPrio);
    }

    /**
     * `DisributeSbs` as evidently intended: as written, but no UE is given
     * more sub-bands than are still free. The sub-bands handed out are
     * then at most `avail` and each UE gets at most its request.
     */
    method DistributeSbs(avail: int) returns (used: int)
      requires 0 <= avail < U32 && |toBeSched| < 0x1_0000
      requires Requesting(toBeSched) && Requesting(ulAlloc)
      modifies this`toBeSched, this`ulAlloc
      ensures |old(toBeSched)| == 0 ==> toBeSched == [] && ulAlloc == old(ulAlloc) && used == 0
      ensures |old(toBeSched)| > 0 ==>
        var r := IntendedShares(old(toBeSched), avail, toBeSchedPrio);
        toBeSched == WithShares(old(toBeSched), r.0) && used == r.1.used
      ensures 0 <= used <= avail && |toBeSched| == |old(toBeSched)|
      ensures forall k :: 0 <= k < |toBeSched| ==> 0 <= toBeSched[k].subbandShare <= toBeSched[k].sbsReq
      ensures ulAlloc == InsertAllByShare(old(ulAlloc), toBeSched)
    {
      if |toBeSched| == 0 {
        return 0;
      }
      ghost var lst0 := toBeSched;
      toBeSched, ulAlloc, used := SharesLoop(toBeSched, ulAlloc, avail, toBeSchedPrio);
      IntendedSharesOk(lst0, avail, toBeSchedPrio);
    }

    /**
     * `UlRbAlloc` as evidently intended: each entry of the allocation
     * list, in order, is granted its resource blocks.
     */
    method UlRbAlloc(c: RbCtx)
      requires Valid() && RbCtxOk(c) && AllEntriesOk(ulAlloc, RbAcc(ues, lcgs, []), c)
      modifies this`ues, this`lcgs, this`ulAlloc
      ensures RbAcc(ues, lcgs, ulAlloc) == RbSeq(RbAcc(old(ues), old(lcgs), []), old(ulAlloc), c)
      ensures Valid()
    {
      ghost var a0 := RbAcc(ues, lcgs, []);
      ghost var r := RbSeq(a0, ulAlloc, c);
      RbSeqGrants(a0, ulAlloc, c);
      RbTouchedOk(State(), lcgs, r, conf);
      ues, lcgs, ulAlloc := GrantAll(ues, lcgs, ulAlloc, c);
    }
  }
}
