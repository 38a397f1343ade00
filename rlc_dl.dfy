/**
 * The downlink RLC buffer reports the scheduler keeps in
 * `m_rlcBufferReq` (`pw-ff-mac-scheduler.cc`): one report per RNTI and
 * logical channel, replaced by every new report, removed when the
 * channel or the UE is released, and drained as the scheduler hands out
 * RLC PDUs.
 */
module DlRlc {
  /** 2^32, the range of the `uint32_t` queue sizes. */
  const UINT32 := 0x1_0000_0000
  const MAX_LCID := 256

  /** `LteFlowId_t`: an RNTI and a logical channel id. */
  datatype FlowId = FlowId(rnti: int, lcId: int)

  /**
   * The part of `SchedDlRlcBufferReqParameters` the scheduler reads: the
   * transmission queue, the retransmission queue and the pending status
   * PDU, in bytes.
   */
  datatype RlcReport = RlcReport(txQueue: int, retxQueue: int, statusPdu: int)

  predicate ReportOk(b: RlcReport)
  {
    0 <= b.txQueue < UINT32 && 0 <= b.retxQueue < UINT32 && 0 <= b.statusPdu < 0x1_0000
  }

  /** Keys are 16-bit RNTIs with 8-bit channel ids, and every report has the source's field widths. */
  predicate ReportsOk(reports: map<FlowId, RlcReport>)
  {
    forall f :: f in reports ==> 0 <= f.rnti < 0x1_0000 && 0 <= f.lcId < MAX_LCID && ReportOk(reports[f])
  }

  /** A channel is active when any of its queues holds data. */
  predicate Active(b: RlcReport)
  {
    b.txQueue > 0 || b.retxQueue > 0 || b.statusPdu > 0
  }

  /** The active channels of an RNTI. */
  function ActiveLcs(reports: map<FlowId, RlcReport>, rnti: int): set<FlowId>
  {
    set f | f in reports && f.rnti == rnti && Active(reports[f])
  }

  /** The active channels of an RNTI below channel id `l`. */
  function ActiveBelow(reports: map<FlowId, RlcReport>, rnti: int, l: int): set<FlowId>
  {
    set f | f in reports && f.rnti == rnti && f.lcId < l && Active(reports[f])
  }

  /** The bytes a report still asks for. */
  function Pending(b: RlcReport): int
  {
    b.txQueue + b.retxQueue + b.statusPdu
  }

  /** The RLC header the scheduler subtracts from a PDU: 4 bytes on SRB1, 2 otherwise. */
  function RlcOverhead(lcId: int): int
  {
    if lcId == 1 then 4 else 2
  }

  /**
   * `UpdateDlRlcBufferInfo` on one report, as written: a PDU of `size`
   * bytes clears the status PDU if it fits, else the retransmission queue
   * if it fits, else takes `size` less the header from the transmission
   * queue. The subtraction is unsigned, so a PDU smaller than the header
   * wraps round to nearly 2^32 and clears the whole transmission queue.
   */
  function DrainAsWritten(b: RlcReport, lcId: int, size: int): (r: RlcReport)
    requires ReportOk(b) && 0 <= size < 0x1_0000
    ensures ReportOk(r)
  {
    if b.statusPdu > 0 && size >= b.statusPdu then b.(statusPdu := 0)
    else if b.retxQueue > 0 && size >= b.retxQueue then b.(retxQueue := 0)
    else if b.txQueue > 0 then
      var payload := (size - RlcOverhead(lcId)) % UINT32;
      if b.txQueue <= payload then b.(txQueue := 0) else b.(txQueue := b.txQueue - payload)
    else b
  }

  /** A one-byte PDU on a data channel empties a 1000-byte transmission queue. */
  lemma DrainAsWrittenTakesTooMuch()
    ensures DrainAsWritten(RlcReport(1000, 0, 0), 3, 1) == RlcReport(0, 0, 0)
    ensures Pending(RlcReport(1000, 0, 0)) - Pending(DrainAsWritten(RlcReport(1000, 0, 0), 3, 1)) > 1
  {
    assert (1 - RlcOverhead(3)) % UINT32 == UINT32 - 1;
  }

  /**
   * `UpdateDlRlcBufferInfo` on one report, with the subtraction the code
   * means: a PDU no larger than the header removes nothing from the
   * transmission queue.
   */
  function Drain(b: RlcReport, lcId: int, size: int): (r: RlcReport)
    requires ReportOk(b) && 0 <= size < 0x1_0000
    ensures ReportOk(r)
  {
    if b.statusPdu > 0 && size >= b.statusPdu then b.(statusPdu := 0)
    else if b.retxQueue > 0 && size >= b.retxQueue then b.(retxQueue := 0)
    else if b.txQueue > 0 then
      var payload := if size >= RlcOverhead(lcId) then size - RlcOverhead(lcId) else 0;
      if b.txQueue <= payload then b.(txQueue := 0) else b.(txQueue := b.txQueue - payload)
    else b
  }

  /**
   * A PDU drains at most one queue, never makes a queue grow, and removes
   * no more bytes than it carries; the two definitions differ only on a
   * PDU smaller than the header.
   */
  lemma DrainBounded(b: RlcReport, lcId: int, size: int)
    requires ReportOk(b) && 0 <= size < 0x1_0000
    ensures var r := Drain(b, lcId, size);
      r.txQueue <= b.txQueue && r.retxQueue <= b.retxQueue && r.statusPdu <= b.statusPdu &&
      0 <= Pending(b) - Pending(r) <= size &&
      (r.txQueue == b.txQueue || (r.retxQueue == b.retxQueue && r.statusPdu == b.statusPdu)) &&
      (r.retxQueue == b.retxQueue || r.statusPdu == b.statusPdu)
    ensures size >= RlcOverhead(lcId) ==> Drain(b, lcId, size) == DrainAsWritten(b, lcId, size)
  {
  }

  /**
   * The order the source drains in: a pending status PDU that fits goes
   * first, then a retransmission queue that fits, and only then the
   * transmission queue, by the PDU less the header.
   */
  lemma DrainOrder(b: RlcReport, lcId: int, size: int)
    requires ReportOk(b) && 0 <= size < 0x1_0000
    ensures b.statusPdu > 0 && size >= b.statusPdu ==> Drain(b, lcId, size) == b.(statusPdu := 0)
    ensures !(b.statusPdu > 0 && size >= b.statusPdu) && b.retxQueue > 0 && size >= b.retxQueue ==>
              Drain(b, lcId, size) == b.(retxQueue := 0)
    ensures !(b.statusPdu > 0 && size >= b.statusPdu) && !(b.retxQueue > 0 && size >= b.retxQueue) ==>
              Drain(b, lcId, size).retxQueue == b.retxQueue && Drain(b, lcId, size).statusPdu == b.statusPdu &&
              Drain(b, lcId, size).txQueue == (if size <= RlcOverhead(lcId) then b.txQueue
                                               else if b.txQueue <= size - RlcOverhead(lcId) then 0
                                               else b.txQueue - (size - RlcOverhead(lcId)))
  {
  }

  /** The reports left when channel `lcId` of `rnti` is released. */
  function WithoutLc(reports: map<FlowId, RlcReport>, rnti: int, lcId: int): map<FlowId, RlcReport>
  {
    map f | f in reports && !(f.rnti == rnti && f.lcId == lcId) :: reports[f]
  }

  /** The reports left when `rnti` is released. */
  function WithoutUe(reports: map<FlowId, RlcReport>, rnti: int): map<FlowId, RlcReport>
  {
    map f | f in reports && f.rnti != rnti :: reports[f]
  }

  /** The releases of `DoCschedLcReleaseReq`, one channel after the other. */
  function WithoutLcs(reports: map<FlowId, RlcReport>, rnti: int, lcs: seq<int>): map<FlowId, RlcReport>
  {
    if lcs == [] then reports else WithoutLc(WithoutLcs(reports, rnti, lcs[..|lcs| - 1]), rnti, lcs[|lcs| - 1])
  }

  /** Releasing a list of channels removes exactly the reports of those channels of that RNTI. */
  lemma {:induction false} WithoutLcsEffect(reports: map<FlowId, RlcReport>, rnti: int, lcs: seq<int>)
    ensures forall f :: f in WithoutLcs(reports, rnti, lcs) <==> f in reports && !(f.rnti == rnti && f.lcId in lcs)
    ensures forall f :: f in WithoutLcs(reports, rnti, lcs) ==> WithoutLcs(reports, rnti, lcs)[f] == reports[f]
  {
    if lcs != [] {
      WithoutLcsEffect(reports, rnti, lcs[..|lcs| - 1]);
      assert forall l :: l in lcs <==> l in lcs[..|lcs| - 1] || l == lcs[|lcs| - 1] by {
        assert lcs == lcs[..|lcs| - 1] + [lcs[|lcs| - 1]];
      }
    }
  }

  /** A released UE has no active channel left, and other UEs keep their reports. */
  lemma WithoutUeEffect(reports: map<FlowId, RlcReport>, rnti: int)
    ensures ActiveLcs(WithoutUe(reports, rnti), rnti) == {}
    ensures forall f :: f in reports && f.rnti != rnti ==> f in WithoutUe(reports, rnti) && WithoutUe(reports, rnti)[f] == reports[f]
  {
  }

  /** Counting one more channel id adds the channel when it is active. */
  lemma ActiveBelowStep(reports: map<FlowId, RlcReport>, rnti: int, l: int)
    ensures ActiveBelow(reports, rnti, l + 1) ==
            ActiveBelow(reports, rnti, l) +
            (if FlowId(rnti, l) in reports && Active(reports[FlowId(rnti, l)]) then {FlowId(rnti, l)} else {})
  {
  }

  /**
   * The scheduler's RLC buffer reports. Mutating operations replace the
   * map as the source's map insertions and erasures do.
   */
  class DlRlcBuffers {
    var reports: map<FlowId, RlcReport>

    ghost predicate Valid()
      reads this
    {
      ReportsOk(reports)
    }

    constructor ()
      ensures Valid() && reports == map[]
    {
      reports := map[];
    }

    /** `DoSchedDlRlcBufferReq`: the report of a channel is inserted or replaced. */
    method SchedDlRlcBufferReq(rnti: int, lcId: int, report: RlcReport)
      requires Valid() && 0 <= rnti < 0x1_0000 && 0 <= lcId < MAX_LCID && ReportOk(report)
      modifies this
      ensures Valid()
      ensures reports == old(reports)[FlowId(rnti, lcId) := report]
    {
      reports := reports[FlowId(rnti, lcId) := report];
    }

    /** `DoCschedLcReleaseReq`: the reports of the listed channels of the RNTI are erased. */
    method CschedLcReleaseReq(rnti: int, lcs: seq<int>)
      requires Valid()
      modifies this
      ensures Valid()
      ensures reports == WithoutLcs(old(reports), rnti, lcs)
    {
      for i := 0 to |lcs|
        invariant reports == WithoutLcs(old(reports), rnti, lcs[..i]) && Valid()
      {
        assert lcs[..i + 1][..i] == lcs[..i];
        reports := map f | f in reports && !(f.rnti == rnti && f.lcId == lcs[i]) :: reports[f];
      }
      assert lcs[..|lcs|] == lcs;
    }

    /** The RLC part of `DoCschedUeReleaseReq`: every report of the RNTI is erased. */
    method ReleaseUe(rnti: int)
      requires Valid()
      modifies this
      ensures Valid()
      ensures reports == WithoutUe(old(reports), rnti)
    {
      reports := map f | f in reports && f.rnti != rnti :: reports[f];
    }

    /**
     * `LcActivePerFlow`: the number of active channels of the RNTI. The
     * source walks the ordered map and stops past the RNTI's entries; the
     * model visits the RNTI's channel ids in the same ascending order.
     */
    method LcActivePerFlow(rnti: int) returns (n: int)
      requires Valid()
      ensures n == |ActiveLcs(reports, rnti)|
    {
      n := 0;
      for l := 0 to MAX_LCID
        invariant n == |ActiveBelow(reports, rnti, l)|
      {
        ActiveBelowStep(reports, rnti, l);
        if FlowId(rnti, l) in reports && Active(reports[FlowId(rnti, l)]) {
          assert FlowId(rnti, l) !in ActiveBelow(reports, rnti, l);
          n := n + 1;
        }
      }
      assert ActiveBelow(reports, rnti, MAX_LCID) == ActiveLcs(reports, rnti);
    }

    /**
     * `UpdateDlRlcBufferInfo`: the channel's report is drained by a PDU of
     * `size` bytes; a channel without a report is left alone.
     */
    method UpdateDlRlcBufferInfo(rnti: int, lcId: int, size: int)
      requires Valid() && 0 <= size < 0x1_0000
      modifies this
      ensures Valid()
      ensures FlowId(rnti, lcId) in old(reports) ==>
                reports == old(reports)[FlowId(rnti, lcId) := DrainAsWritten(old(reports)[FlowId(rnti, lcId)], lcId, size)]
      ensures FlowId(rnti, lcId) !in old(reports) ==> reports == old(reports)
    {
      var flow := FlowId(rnti, lcId);
      if flow in reports {
        reports := reports[flow := DrainAsWritten(reports[flow], lcId, size)];
      }
    }
  }
}
