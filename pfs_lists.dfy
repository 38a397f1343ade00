/**
 * The uplink proportional-fair scheduler's per-UE record and the ordered
 * lists it keeps: the priority queues (descending priority), the list of
 * UEs to schedule (ascending sub-band request), the allocation list
 * (ascending sub-band share) and the removal of a UE from a queue.
 */
module PfsLists {

  /** `PfsFracPrioInfo`: bytes served towards the next fairness level, the level, and the bytes per level. */
  datatype FracPrioInfo = FracPrioInfo(achvd: int, lvls: int, rate: int)

  /** Which queue, if any, a UE record says it sits in (`pointQueue`). */
  datatype QueueRef = NoQueue | InGbrQueue(gq: int) | InAmbrQueue(aq: int)

  /** Per-LCG scheduling information of a UE (`schedLcgInfo`). */
  datatype SchedLcgInfo = SchedLcgInfo(lcgPrio: int, cfgdGbr: int, lcgFracPrio: FracPrioInfo)

  /** `PfsUlUe`: the scheduler's record of one uplink UE; the queues hold copies of it. */
  datatype PfsUlUe = PfsUlUe(
    rnti: int,
    pfsPrio: int,
    cqiPrio: int,
    lcgPrio: int,
    effBsr: int,
    sbsReq: int,
    subbandShare: int,
    nPrb: int,
    qid: int,
    fracPrioInfo: FracPrioInfo,
    schedLcgInfo: seq<SchedLcgInfo>,
    queue: QueueRef)

  // ---------------------------------------------------------------------
  // Priority queues: descending PfsPrio
  // ---------------------------------------------------------------------

  predicate SortedByPrio(q: seq<PfsUlUe>)
  {
    forall i, j :: 0 <= i < j < |q| ==> q[i].pfsPrio >= q[j].pfsPrio
  }

  /** The first position whose priority is strictly lower than `p`. */
  function FirstLowerPrio(q: seq<PfsUlUe>, p: int): (i: nat)
    ensures i <= |q|
    ensures forall k :: 0 <= k < i ==> q[k].pfsPrio >= p
    ensures i < |q| ==> q[i].pfsPrio < p
  {
    if |q| == 0 || q[0].pfsPrio < p then 0 else 1 + FirstLowerPrio(q[1..], p)
  }

  /** The queue after `PfsUlAddUeToQ`. */
  function InsertByPrio(q: seq<PfsUlUe>, e: PfsUlUe): seq<PfsUlUe>
  {
    var i := FirstLowerPrio(q, e.pfsPrio);
    q[..i] + [e] + q[i..]
  }

  /**
   * `PfsUlAddUeToQ`: inserts the UE before the first entry of strictly
   * lower priority, so after every entry of equal priority.
   */
  method PfsUlAddUeToQ(q: seq<PfsUlUe>, e: PfsUlUe) returns (r: seq<PfsUlUe>)
    ensures r == InsertByPrio(q, e)
  {
    var i := 0;
    while i < |q|
      invariant 0 <= i <= |q|
      invariant forall k :: 0 <= k < i ==> q[k].pfsPrio >= e.pfsPrio
    {
      if q[i].pfsPrio < e.pfsPrio {
        FirstLowerPrioIs(q, e.pfsPrio, i);
        return q[..i] + [e] + q[i..];
      }
      i := i + 1;
    }
    FirstLowerPrioIs(q, e.pfsPrio, i);
    r := q[..i] + [e] + q[i..];
  }

  /** The position `FirstLowerPrio` finds is the only one with its two properties. */
  lemma {:induction false} FirstLowerPrioIs(q: seq<PfsUlUe>, p: int, i: nat)
    requires i <= |q|
    requires forall k :: 0 <= k < i ==> q[k].pfsPrio >= p
    requires i < |q| ==> q[i].pfsPrio < p
    ensures FirstLowerPrio(q, p) == i
  {
    if i > 0 {
      assert q[0].pfsPrio >= p;
      FirstLowerPrioIs(q[1..], p, i - 1);
    }
  }

  /**
   * Where each entry of a queue ends up when one entry is inserted at
   * position `i`, and that nothing is lost or gained but that entry.
   */
  lemma InsertAtIndex(q: seq<PfsUlUe>, i: nat, e: PfsUlUe)
    requires i <= |q|
    ensures var r := q[..i] + [e] + q[i..];
      |r| == |q| + 1 && r[i] == e &&
      (forall k :: 0 <= k < i ==> r[k] == q[k]) &&
      (forall k :: i < k < |r| ==> r[k] == q[k - 1])
  {
  }

  lemma InsertAtMultiset(q: seq<PfsUlUe>, i: nat, e: PfsUlUe)
    requires i <= |q|
    ensures multiset(q[..i] + [e] + q[i..]) == multiset(q) + multiset{e}
  {
    assert q == q[..i] + q[i..];
  }

  /**
   * Inserting keeps a queue in descending priority order, grows it by
   * exactly one entry and loses none.
   */
  lemma InsertByPrioSorted(q: seq<PfsUlUe>, e: PfsUlUe)
    requires SortedByPrio(q)
    ensures SortedByPrio(InsertByPrio(q, e))
    ensures |InsertByPrio(q, e)| == |q| + 1
    ensures multiset(InsertByPrio(q, e)) == multiset(q) + multiset{e}
  {
    var i := FirstLowerPrio(q, e.pfsPrio);
    var r := InsertByPrio(q, e);
    InsertAtIndex(q, i, e);
    InsertAtMultiset(q, i, e);
    forall a, b | 0 <= a < b < |r|
      ensures r[a].pfsPrio >= r[b].pfsPrio
    {
      if b < i {
        assert r[a] == q[a] && r[b] == q[b];
      } else if b == i {
        assert r[b] == e && r[a] == q[a];
      } else if a < i {
        assert r[a] == q[a] && r[b] == q[b - 1];
      } else if a == i {
        assert r[a] == e && r[b] == q[b - 1];
        assert q[i].pfsPrio >= q[b - 1].pfsPrio;
      } else {
        assert r[a] == q[a - 1] && r[b] == q[b - 1];
      }
    }
  }

  // ---------------------------------------------------------------------
  // Removal from a queue
  // ---------------------------------------------------------------------

  /**
   * The queue left by `PfsRmvUeFromQueue`: the loop erases a matching
   * entry and then still advances, so the entry after an erased one is
   * never examined, and erasing the last entry ends the loop.
   */
  function RemoveSkipping(q: seq<PfsUlUe>, rnti: int): seq<PfsUlUe>
  {
    if |q| == 0 then []
    else if q[0].rnti == rnti then (if |q| == 1 then [] else [q[1]] + RemoveSkipping(q[2..], rnti))
    else [q[0]] + RemoveSkipping(q[1..], rnti)
  }

  /** The erase loop of `PfsRmvUeFromQueue`. */
  method RemoveFromQueue(q: seq<PfsUlUe>, rnti: int) returns (r: seq<PfsUlUe>)
    ensures r == RemoveSkipping(q, rnti)
  {
    r := q;
    var i := 0;
    while i < |r|
      invariant 0 <= i <= |r| + 1
      invariant i <= |r| ==> RemoveSkipping(q, rnti) == r[..i] + RemoveSkipping(r[i..], rnti)
      invariant i == |r| + 1 ==> RemoveSkipping(q, rnti) == r
      decreases |r| + 1 - i
    {
      if r[i].rnti == rnti {
        EraseStep(r, i, rnti);
        r := r[..i] + r[i + 1..];
      } else {
        KeepStep(r, i, rnti);
      }
      i := i + 1;
    }
  }

  lemma EraseStep(r: seq<PfsUlUe>, i: nat, rnti: int)
    requires i < |r| && r[i].rnti == rnti
    ensures var r' := r[..i] + r[i + 1..];
      (i + 1 <= |r'| ==> r'[..i + 1] + RemoveSkipping(r'[i + 1..], rnti) == r[..i] + RemoveSkipping(r[i..], rnti)) &&
      (i + 1 == |r'| + 1 ==> r' == r[..i] + RemoveSkipping(r[i..], rnti))
  {
    var r' := r[..i] + r[i + 1..];
    if i + 1 < |r| {
      assert RemoveSkipping(r[i..], rnti) == [r[i + 1]] + RemoveSkipping(r[i + 2..], rnti) by {
        assert r[i..][1..] == r[i + 1..];
        assert r[i..][2..] == r[i + 2..];
      }
      assert r'[..i + 1] == r[..i] + [r[i + 1]];
      assert r'[i + 1..] == r[i + 2..];
    } else {
      assert r' == r[..i];
    }
  }

  lemma KeepStep(r: seq<PfsUlUe>, i: nat, rnti: int)
    requires i < |r| && r[i].rnti != rnti
    ensures r[..i + 1] + RemoveSkipping(r[i + 1..], rnti) == r[..i] + RemoveSkipping(r[i..], rnti)
  {
    assert r[i..][1..] == r[i + 1..];
    assert r[..i + 1] == r[..i] + [r[i]];
  }

  function FilterOut(q: seq<PfsUlUe>, rnti: int): (r: seq<PfsUlUe>)
    ensures forall k :: 0 <= k < |r| ==> r[k].rnti != rnti
  {
    if |q| == 0 then []
    else if q[0].rnti == rnti then FilterOut(q[1..], rnti)
    else [q[0]] + FilterOut(q[1..], rnti)
  }

  predicate AtMostOnce(q: seq<PfsUlUe>, rnti: int)
  {
    forall i, j :: 0 <= i < j < |q| && q[i].rnti == rnti ==> q[j].rnti != rnti
  }

  /**
   * When the UE occurs at most once in the queue, as the scheduler
   * keeps it, the erase loop removes exactly its entry and leaves the
   * others in their order.
   */
  lemma {:induction false} RemoveSkippingOnce(q: seq<PfsUlUe>, rnti: int)
    requires AtMostOnce(q, rnti)
    ensures RemoveSkipping(q, rnti) == FilterOut(q, rnti)
  {
    if |q| > 0 {
      assert AtMostOnce(q[1..], rnti) by {
        forall i, j | 0 <= i < j < |q[1..]| && q[1..][i].rnti == rnti
          ensures q[1..][j].rnti != rnti
        {
          assert q[i + 1].rnti == rnti;
        }
      }
      if q[0].rnti == rnti {
        if |q| > 1 {
          assert forall k :: 1 <= k < |q| ==> q[k].rnti != rnti;
          RemoveSkippingNone(q[2..], rnti);
          NoneFiltered(q[1..], rnti);
          assert [q[1]] + q[2..] == q[1..];
        }
      } else {
        RemoveSkippingOnce(q[1..], rnti);
      }
    }
  }

  lemma {:induction false} RemoveSkippingNone(q: seq<PfsUlUe>, rnti: int)
    requires forall k :: 0 <= k < |q| ==> q[k].rnti != rnti
    ensures RemoveSkipping(q, rnti) == q
  {
    if |q| > 0 {
      RemoveSkippingNone(q[1..], rnti);
    }
  }

  lemma {:induction false} NoneFiltered(q: seq<PfsUlUe>, rnti: int)
    requires forall k :: 0 <= k < |q| ==> q[k].rnti != rnti
    ensures FilterOut(q, rnti) == q
  {
    if |q| > 0 {
      NoneFiltered(q[1..], rnti);
    }
  }

  /** Every entry the erase loop keeps was in the queue. */
  lemma {:induction false} RemoveSkippingSubset(q: seq<PfsUlUe>, rnti: int)
    ensures forall x :: x in RemoveSkipping(q, rnti) ==> x in q
  {
    if |q| > 1 && q[0].rnti == rnti {
      RemoveSkippingSubset(q[2..], rnti);
    } else if |q| > 0 && q[0].rnti != rnti {
      RemoveSkippingSubset(q[1..], rnti);
    }
  }

  /** Removing a UE keeps a queue in descending priority order. */
  lemma {:induction false} RemoveSkippingSorted(q: seq<PfsUlUe>, rnti: int)
    requires SortedByPrio(q)
    ensures SortedByPrio(RemoveSkipping(q, rnti))
  {
    if |q| > 1 && q[0].rnti == rnti {
      assert SortedByPrio(q[2..]) by {
        forall a, b | 0 <= a < b < |q[2..]| ensures q[2..][a].pfsPrio >= q[2..][b].pfsPrio {
          assert q[2..][a] == q[a + 2] && q[2..][b] == q[b + 2];
        }
      }
      RemoveSkippingSorted(q[2..], rnti);
      RemoveSkippingSubset(q[2..], rnti);
      HeadSorted(q[1], RemoveSkipping(q[2..], rnti), q[2..]);
    } else if |q| > 0 && q[0].rnti != rnti {
      assert SortedByPrio(q[1..]) by {
        forall a, b | 0 <= a < b < |q[1..]| ensures q[1..][a].pfsPrio >= q[1..][b].pfsPrio {
          assert q[1..][a] == q[a + 1] && q[1..][b] == q[b + 1];
        }
      }
      RemoveSkippingSorted(q[1..], rnti);
      RemoveSkippingSubset(q[1..], rnti);
      HeadSorted(q[0], RemoveSkipping(q[1..], rnti), q[1..]);
    }
  }

  lemma HeadSorted(h: PfsUlUe, t: seq<PfsUlUe>, src: seq<PfsUlUe>)
    requires SortedByPrio(t)
    requires forall x :: x in t ==> x in src
    requires forall x :: x in src ==> h.pfsPrio >= x.pfsPrio
    ensures SortedByPrio([h] + t)
  {
    var r := [h] + t;
    forall a, b | 0 <= a < b < |r| ensures r[a].pfsPrio >= r[b].pfsPrio {
      if a == 0 {
        assert r[b] == t[b - 1] && r[b] in src;
      } else {
        assert r[a] == t[a - 1] && r[b] == t[b - 1];
      }
    }
  }

  // ---------------------------------------------------------------------
  // UEs to schedule: ascending sub-band request
  // ---------------------------------------------------------------------

  predicate SortedByReq(q: seq<PfsUlUe>)
  {
    forall i, j :: 0 <= i < j < |q| ==> q[i].sbsReq <= q[j].sbsReq
  }

  /** The first position whose sub-band request exceeds `req`. */
  function FirstGreaterReq(q: seq<PfsUlUe>, req: int): (i: nat)
    ensures i <= |q|
    ensures forall k :: 0 <= k < i ==> q[k].sbsReq <= req
    ensures i < |q| ==> q[i].sbsReq > req
  {
    if |q| == 0 || q[0].sbsReq > req then 0 else 1 + FirstGreaterReq(q[1..], req)
  }

  lemma {:induction false} FirstGreaterReqIs(q: seq<PfsUlUe>, req: int, i: nat)
    requires i <= |q|
    requires forall k :: 0 <= k < i ==> q[k].sbsReq <= req
    requires i < |q| ==> q[i].sbsReq > req
    ensures FirstGreaterReq(q, req) == i
  {
    if i > 0 {
      assert q[0].sbsReq <= req;
      FirstGreaterReqIs(q[1..], req, i - 1);
    }
  }

  /** The list after `SortAndInsertUeLst`. */
  function InsertByReq(q: seq<PfsUlUe>, e: PfsUlUe, req: int): seq<PfsUlUe>
  {
    var i := FirstGreaterReq(q, req);
    q[..i] + [e] + q[i..]
  }

  /**
   * `SortAndInsertUeLst`: inserts before the first entry whose request
   * exceeds `req`, so after every entry with an equal request.
   */
  method SortAndInsertUeLst(q: seq<PfsUlUe>, e: PfsUlUe, req: int) returns (r: seq<PfsUlUe>)
    ensures r == InsertByReq(q, e, req)
  {
    var i := 0;
    while i < |q|
      invariant 0 <= i <= |q|
      invariant forall k :: 0 <= k < i ==> q[k].sbsReq <= req
    {
      if q[i].sbsReq > req {
        FirstGreaterReqIs(q, req, i);
        return q[..i] + [e] + q[i..];
      }
      i := i + 1;
    }
    FirstGreaterReqIs(q, req, i);
    r := q[..i] + [e] + q[i..];
  }

  /**
   * With the UE's own request as the key, as the caller passes it,
   * inserting keeps the list in ascending request order and grows it by
   * exactly one entry.
   */
  lemma InsertByReqSorted(q: seq<PfsUlUe>, e: PfsUlUe)
    requires SortedByReq(q)
    ensures SortedByReq(InsertByReq(q, e, e.sbsReq))
    ensures |InsertByReq(q, e, e.sbsReq)| == |q| + 1
    ensures multiset(InsertByReq(q, e, e.sbsReq)) == multiset(q) + multiset{e}
  {
    var i := FirstGreaterReq(q, e.sbsReq);
    var r := InsertByReq(q, e, e.sbsReq);
    InsertAtIndex(q, i, e);
    InsertAtMultiset(q, i, e);
    forall a, b | 0 <= a < b < |r|
      ensures r[a].sbsReq <= r[b].sbsReq
    {
      if b < i {
        assert r[a] == q[a] && r[b] == q[b];
      } else if b == i {
        assert r[b] == e && r[a] == q[a];
      } else if a < i {
        assert r[a] == q[a] && r[b] == q[b - 1];
      } else if a == i {
        assert r[a] == e && r[b] == q[b - 1];
        assert q[i].sbsReq <= q[b - 1].sbsReq;
      } else {
        assert r[a] == q[a - 1] && r[b] == q[b - 1];
      }
    }
  }

  // ---------------------------------------------------------------------
  // Allocation list: ascending sub-band share
  // ---------------------------------------------------------------------

  predicate SortedByShare(q: seq<PfsUlUe>)
  {
    forall i, j :: 0 <= i < j < |q| ==> q[i].subbandShare <= q[j].subbandShare
  }

  function FirstGreaterShare(q: seq<PfsUlUe>, share: int): (i: nat)
    ensures i <= |q|
    ensures forall k :: 0 <= k < i ==> q[k].subbandShare <= share
    ensures i < |q| ==> q[i].subbandShare > share
  {
    if |q| == 0 || q[0].subbandShare > share then 0 else 1 + FirstGreaterShare(q[1..], share)
  }

  lemma {:induction false} FirstGreaterShareIs(q: seq<PfsUlUe>, share: int, i: nat)
    requires i <= |q|
    requires forall k :: 0 <= k < i ==> q[k].subbandShare <= share
    requires i < |q| ==> q[i].subbandShare > share
    ensures FirstGreaterShare(q, share) == i
  {
    if i > 0 {
      assert q[0].subbandShare <= share;
      FirstGreaterShareIs(q[1..], share, i - 1);
    }
  }

  /**
   * The list after `SortAndInsertUeLstSbShare`: a UE without a share goes
   * to the end, any other before the first entry with a larger share.
   */
  function InsertByShare(q: seq<PfsUlUe>, e: PfsUlUe): seq<PfsUlUe>
  {
    if e.subbandShare == 0 && |q| > 0 then q + [e]
    else
      var i := FirstGreaterShare(q, e.subbandShare);
      q[..i] + [e] + q[i..]
  }

  /**
   * `SortAndInsertUeLstSbShare`. Its third test (an entry whose request
   * is 0) inserts without leaving the loop; no listed UE ever has a zero
   * request, and the precondition says so.
   */
  method SortAndInsertUeLstSbShare(q: seq<PfsUlUe>, e: PfsUlUe) returns (r: seq<PfsUlUe>)
    requires forall k :: 0 <= k < |q| ==> q[k].sbsReq != 0
    ensures r == InsertByShare(q, e)
  {
    var i := 0;
    while i < |q|
      invariant 0 <= i <= |q|
      invariant forall k :: 0 <= k < i ==> q[k].subbandShare <= e.subbandShare
      invariant i > 0 ==> e.subbandShare != 0
    {
      if e.subbandShare == 0 {
        return q + [e];
      }
      if q[i].subbandShare > e.subbandShare {
        FirstGreaterShareIs(q, e.subbandShare, i);
        return q[..i] + [e] + q[i..];
      }
      i := i + 1;
    }
    FirstGreaterShareIs(q, e.subbandShare, i);
    r := q[..i] + [e] + q[i..];
  }

  /**
   * A UE with a share keeps the allocation list in ascending share
   * order; either way the list grows by exactly one entry.
   */
  lemma InsertByShareSorted(q: seq<PfsUlUe>, e: PfsUlUe)
    requires SortedByShare(q)
    ensures e.subbandShare > 0 ==> SortedByShare(InsertByShare(q, e))
    ensures |InsertByShare(q, e)| == |q| + 1
    ensures multiset(InsertByShare(q, e)) == multiset(q) + multiset{e}
  {
    if e.subbandShare == 0 && |q| > 0 {
      return;
    }
    var i := FirstGreaterShare(q, e.subbandShare);
    InsertAtMultiset(q, i, e);
    if e.subbandShare > 0 {
      InsertAtShareSorted(q, e, i);
    }
  }

  lemma InsertAtShareSorted(q: seq<PfsUlUe>, e: PfsUlUe, i: nat)
    requires SortedByShare(q) && i == FirstGreaterShare(q, e.subbandShare)
    ensures SortedByShare(q[..i] + [e] + q[i..])
  {
    var r := q[..i] + [e] + q[i..];
    InsertAtIndex(q, i, e);
    forall a, b | 0 <= a < b < |r|
      ensures r[a].subbandShare <= r[b].subbandShare
    {
      if b < i {
        assert r[a] == q[a] && r[b] == q[b];
      } else if b == i {
        assert r[b] == e && r[a] == q[a];
      } else if a < i {
        assert r[a] == q[a] && r[b] == q[b - 1];
      } else if a == i {
        assert r[a] == e && r[b] == q[b - 1];
        assert q[i].subbandShare <= q[b - 1].subbandShare;
      } else {
        assert r[a] == q[a - 1] && r[b] == q[b - 1];
      }
    }
  }
}
