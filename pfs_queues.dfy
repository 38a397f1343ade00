/**
 * The uplink PFS state of the scheduler: the per-UE records, the buffer
 * reports, the GBR and AMBR priority queues and the list of UEs picked
 * for the TTI. Queue transitions are defined on values first, so that
 * their invariants can be proved as lemmas, and the class methods are
 * proved to follow them.
 */
module PfsQueues {
  import opened PfsLists
  import opened Pfs
  import opened SchedConfig

  /** Every queue reference of a record points at an existing queue. */
  predicate RefOk(ref: QueueRef, numGbr: int, numAmbr: int)
  {
    match ref
    case NoQueue => true
    case InGbrQueue(q) => 0 <= q < numGbr
    case InAmbrQueue(q) => 0 <= q < numAmbr
  }

  predicate QueueOk(q: seq<PfsUlUe>, ues: map<int, PfsUlUe>)
  {
    SortedByPrio(q) && forall k :: 0 <= k < |q| ==> q[k].rnti in ues
  }

  /**
   * The invariant of the uplink queues: each is in descending priority
   * order, holds only known UEs, every record's queue reference is valid,
   * a queued record carries its own RNTI, and every priority is a
   * `uint32_t`.
   */
  predicate QueuesOk(ues: map<int, PfsUlUe>, gbr: seq<seq<PfsUlUe>>, ambr: seq<seq<PfsUlUe>>)
  {
    (forall i :: 0 <= i < |gbr| ==> QueueOk(gbr[i], ues)) &&
    (forall i :: 0 <= i < |ambr| ==> QueueOk(ambr[i], ues)) &&
    (forall r :: r in ues ==> RefOk(ues[r].queue, |gbr|, |ambr|) && 0 <= ues[r].pfsPrio < U32) &&
    (forall r :: r in ues && ues[r].queue != NoQueue ==> ues[r].rnti == r)
  }

  datatype QueueState = QueueState(ues: map<int, PfsUlUe>, gbr: seq<seq<PfsUlUe>>, ambr: seq<seq<PfsUlUe>>)

  /** `PfsRmvUeFromQueue`: the UE leaves the queue its record names, and the record forgets it. */
  function AfterRemove(s: QueueState, rnti: int): QueueState
    requires rnti in s.ues && RefOk(s.ues[rnti].queue, |s.gbr|, |s.ambr|)
  {
    var ue := s.ues[rnti];
    match ue.queue
    case NoQueue => s
    case InGbrQueue(q) =>
      QueueState(s.ues[rnti := ue.(queue := NoQueue)], s.gbr[q := RemoveSkipping(s.gbr[q], ue.rnti)], s.ambr)
    case InAmbrQueue(q) =>
      QueueState(s.ues[rnti := ue.(queue := NoQueue)], s.gbr, s.ambr[q := RemoveSkipping(s.ambr[q], ue.rnti)])
  }

  /** The queue a priority selects in the round-robin-like configuration, for a given range. */
  function QueueIndex(prio: int, range: PfsPrioRange): int
    requires 0 <= prio
  {
    UlGetQIdNew(prio, range)
  }

  /**
   * `PfsAddUeToPfsQ`: a queued UE whose priority did not change stays
   * where it is; otherwise it leaves its queue and is inserted, as a
   * copy, into the GBR queue (guaranteed rate still owed) or the AMBR
   * queue its priority selects; with only a delta-MBR owed just the queue
   * index is recorded.
   */
  function AfterAdd(s: QueueState, prioChanged: bool, lcg: UlLcg, rnti: int,
                    gbrRange: PfsPrioRange, mbrRange: PfsPrioRange, ambrRange: PfsPrioRange): QueueState
    requires rnti in s.ues && QueuesOk(s.ues, s.gbr, s.ambr)
    requires lcg.effGbr != 0 ==> |s.gbr| >= 128
    requires lcg.effGbr == 0 && lcg.effDeltaMbr == 0 ==> |s.ambr| >= 128
  {
    var ue := s.ues[rnti];
    if ue.queue != NoQueue && !prioChanged then s
    else
      var s1 := AfterRemove(s, rnti);
      var ue1 := s1.ues[rnti];
      if lcg.effGbr != 0 then
        var q := QueueIndex(ue1.pfsPrio, gbrRange);
        var e := ue1.(qid := q, rnti := rnti);
        QueueState(s1.ues[rnti := e.(queue := InGbrQueue(q))], s1.gbr[q := InsertByPrio(s1.gbr[q], e)], s1.ambr)
      else if lcg.effDeltaMbr != 0 then
        var q := QueueIndex(ue1.pfsPrio, mbrRange);
        QueueState(s1.ues[rnti := ue1.(qid := q)], s1.gbr, s1.ambr)
      else
        var q := QueueIndex(ue1.pfsPrio, ambrRange);
        var e := ue1.(qid := q, rnti := rnti);
        QueueState(s1.ues[rnti := e.(queue := InAmbrQueue(q))], s1.gbr, s1.ambr[q := InsertByPrio(s1.ambr[q], e)])
  }

  lemma RemoveKeepsQueueOk(q: seq<PfsUlUe>, ues: map<int, PfsUlUe>, ues': map<int, PfsUlUe>, rnti: int)
    requires QueueOk(q, ues) && ues'.Keys == ues.Keys
    ensures QueueOk(RemoveSkipping(q, rnti), ues')
  {
    RemoveSkippingSorted(q, rnti);
    RemoveSkippingSubset(q, rnti);
    var r := RemoveSkipping(q, rnti);
    forall k | 0 <= k < |r| ensures r[k].rnti in ues' {
      assert r[k] in r;
    }
  }

  lemma InsertKeepsQueueOk(q: seq<PfsUlUe>, e: PfsUlUe, ues: map<int, PfsUlUe>)
    requires QueueOk(q, ues) && e.rnti in ues
    ensures QueueOk(InsertByPrio(q, e), ues)
  {
    InsertByPrioSorted(q, e);
    var r := InsertByPrio(q, e);
    forall k | 0 <= k < |r| ensures r[k].rnti in ues {
      assert r[k] in multiset(r);
      assert r[k] in multiset(q) || r[k] == e;
    }
  }

  lemma QueueOkSameKeys(q: seq<PfsUlUe>, ues: map<int, PfsUlUe>, ues': map<int, PfsUlUe>)
    requires QueueOk(q, ues) && ues'.Keys == ues.Keys
    ensures QueueOk(q, ues')
  {
  }

  /** Leaving a queue keeps the invariant. */
  lemma AfterRemoveOk(s: QueueState, rnti: int)
    requires rnti in s.ues && QueuesOk(s.ues, s.gbr, s.ambr)
    ensures var s1 := AfterRemove(s, rnti);
      QueuesOk(s1.ues, s1.gbr, s1.ambr) && |s1.gbr| == |s.gbr| && |s1.ambr| == |s.ambr| &&
      s1.ues.Keys == s.ues.Keys && s1.ues[rnti].queue == NoQueue &&
      s1.ues[rnti] == s.ues[rnti].(queue := NoQueue)
  {
    var s1 := AfterRemove(s, rnti);
    var ue := s.ues[rnti];
    match ue.queue
    case NoQueue =>
    case InGbrQueue(q) =>
      forall i | 0 <= i < |s1.gbr| ensures QueueOk(s1.gbr[i], s1.ues) {
        if i == q {
          RemoveKeepsQueueOk(s.gbr[q], s.ues, s1.ues, ue.rnti);
        } else {
          QueueOkSameKeys(s.gbr[i], s.ues, s1.ues);
        }
      }
      forall i | 0 <= i < |s1.ambr| ensures QueueOk(s1.ambr[i], s1.ues) {
        QueueOkSameKeys(s.ambr[i], s.ues, s1.ues);
      }
    case InAmbrQueue(q) =>
      forall i | 0 <= i < |s1.ambr| ensures QueueOk(s1.ambr[i], s1.ues) {
        if i == q {
          RemoveKeepsQueueOk(s.ambr[q], s.ues, s1.ues, ue.rnti);
        } else {
          QueueOkSameKeys(s.ambr[i], s.ues, s1.ues);
        }
      }
      forall i | 0 <= i < |s1.gbr| ensures QueueOk(s1.gbr[i], s1.ues) {
        QueueOkSameKeys(s.gbr[i], s.ues, s1.ues);
      }
  }

  /** Replacing one record by another with the same queue reference keeps the invariant. */
  lemma RecordUpdateOk(s: QueueState, rnti: int, e: PfsUlUe)
    requires QueuesOk(s.ues, s.gbr, s.ambr) && rnti in s.ues
    requires RefOk(e.queue, |s.gbr|, |s.ambr|) && 0 <= e.pfsPrio < U32
    requires e.queue != NoQueue ==> e.rnti == rnti
    ensures QueuesOk(s.ues[rnti := e], s.gbr, s.ambr)
  {
    var u := s.ues[rnti := e];
    forall i | 0 <= i < |s.gbr| ensures QueueOk(s.gbr[i], u) {
      QueueOkSameKeys(s.gbr[i], s.ues, u);
    }
    forall i | 0 <= i < |s.ambr| ensures QueueOk(s.ambr[i], u) {
      QueueOkSameKeys(s.ambr[i], s.ues, u);
    }
  }

  /** Inserting a known UE into one GBR queue, and pointing its record at it, keeps the invariant. */
  lemma GbrInsertOk(s: QueueState, rnti: int, e: PfsUlUe, q: int)
    requires QueuesOk(s.ues, s.gbr, s.ambr) && rnti in s.ues && e.rnti == rnti
    requires 0 <= q < |s.gbr| && 0 <= e.pfsPrio < U32
    ensures QueuesOk(s.ues[rnti := e.(queue := InGbrQueue(q))], s.gbr[q := InsertByPrio(s.gbr[q], e)], s.ambr)
  {
    var u := s.ues[rnti := e.(queue := InGbrQueue(q))];
    var g := s.gbr[q := InsertByPrio(s.gbr[q], e)];
    InsertKeepsQueueOk(s.gbr[q], e, s.ues);
    forall i | 0 <= i < |g| ensures QueueOk(g[i], u) {
      QueueOkSameKeys(if i == q then InsertByPrio(s.gbr[q], e) else s.gbr[i], s.ues, u);
    }
    forall i | 0 <= i < |s.ambr| ensures QueueOk(s.ambr[i], u) {
      QueueOkSameKeys(s.ambr[i], s.ues, u);
    }
  }

  /** Inserting a known UE into one AMBR queue, and pointing its record at it, keeps the invariant. */
  lemma AmbrInsertOk(s: QueueState, rnti: int, e: PfsUlUe, q: int)
    requires QueuesOk(s.ues, s.gbr, s.ambr) && rnti in s.ues && e.rnti == rnti
    requires 0 <= q < |s.ambr| && 0 <= e.pfsPrio < U32
    ensures QueuesOk(s.ues[rnti := e.(queue := InAmbrQueue(q))], s.gbr, s.ambr[q := InsertByPrio(s.ambr[q], e)])
  {
    var u := s.ues[rnti := e.(queue := InAmbrQueue(q))];
    var a := s.ambr[q := InsertByPrio(s.ambr[q], e)];
    InsertKeepsQueueOk(s.ambr[q], e, s.ues);
    forall i | 0 <= i < |a| ensures QueueOk(a[i], u) {
      QueueOkSameKeys(if i == q then InsertByPrio(s.ambr[q], e) else s.ambr[i], s.ues, u);
    }
    forall i | 0 <= i < |s.gbr| ensures QueueOk(s.gbr[i], u) {
      QueueOkSameKeys(s.gbr[i], s.ues, u);
    }
  }

  lemma InsertContains(q: seq<PfsUlUe>, e: PfsUlUe)
    requires SortedByPrio(q)
    ensures e in InsertByPrio(q, e)
  {
    InsertByPrioSorted(q, e);
    assert e in multiset(InsertByPrio(q, e));
  }

  /**
   * `PfsAddUeToPfsQ` keeps every queue sorted and every reference valid,
   * touches no other UE's record, and a UE that is (re)queued sits in the
   * queue of its priority, which its record names.
   */
  lemma AfterAddOk(s: QueueState, prioChanged: bool, lcg: UlLcg, rnti: int,
                   gbrRange: PfsPrioRange, mbrRange: PfsPrioRange, ambrRange: PfsPrioRange)
    requires rnti in s.ues && QueuesOk(s.ues, s.gbr, s.ambr)
    requires lcg.effGbr != 0 ==> |s.gbr| >= 128
    requires lcg.effGbr == 0 && lcg.effDeltaMbr == 0 ==> |s.ambr| >= 128
    ensures var s2 := AfterAdd(s, prioChanged, lcg, rnti, gbrRange, mbrRange, ambrRange);
      QueuesOk(s2.ues, s2.gbr, s2.ambr) && |s2.gbr| == |s.gbr| && |s2.ambr| == |s.ambr| &&
      s2.ues.Keys == s.ues.Keys &&
      s2.ues[rnti] == s.ues[rnti].(queue := s2.ues[rnti].queue, qid := s2.ues[rnti].qid, rnti := s2.ues[rnti].rnti) &&
      (forall r :: r in s.ues && r != rnti ==> s2.ues[r] == s.ues[r])
    ensures var s2 := AfterAdd(s, prioChanged, lcg, rnti, gbrRange, mbrRange, ambrRange);
      var q := QueueIndex(s.ues[rnti].pfsPrio, gbrRange);
      (s.ues[rnti].queue == NoQueue || prioChanged) && lcg.effGbr != 0 ==>
        s2.ues[rnti].queue == InGbrQueue(q) && s2.ues[rnti].qid == q &&
        s.ues[rnti].(queue := NoQueue, qid := q, rnti := rnti) in s2.gbr[q]
    ensures var s2 := AfterAdd(s, prioChanged, lcg, rnti, gbrRange, mbrRange, ambrRange);
      var q := QueueIndex(s.ues[rnti].pfsPrio, ambrRange);
      (s.ues[rnti].queue == NoQueue || prioChanged) && lcg.effGbr == 0 && lcg.effDeltaMbr == 0 ==>
        s2.ues[rnti].queue == InAmbrQueue(q) && s2.ues[rnti].qid == q &&
        s.ues[rnti].(queue := NoQueue, qid := q, rnti := rnti) in s2.ambr[q]
  {
    var ue := s.ues[rnti];
    if ue.queue != NoQueue && !prioChanged {
      return;
    }
    AfterRemoveOk(s, rnti);
    var s1 := AfterRemove(s, rnti);
    var ue1 := s1.ues[rnti];
    if lcg.effGbr != 0 {
      var q := QueueIndex(ue1.pfsPrio, gbrRange);
      GbrInsertOk(s1, rnti, ue1.(qid := q, rnti := rnti), q);
      InsertContains(s1.gbr[q], ue1.(qid := q, rnti := rnti));
    } else if lcg.effDeltaMbr != 0 {
      var q := QueueIndex(ue1.pfsPrio, mbrRange);
      RecordUpdateOk(s1, rnti, ue1.(qid := q));
    } else {
      var q := QueueIndex(ue1.pfsPrio, ambrRange);
      AmbrInsertOk(s1, rnti, ue1.(qid := q, rnti := rnti), q);
      InsertContains(s1.ambr[q], ue1.(qid := q, rnti := rnti));
    }
  }
}
