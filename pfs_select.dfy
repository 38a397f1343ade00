/**
 * The three steps of an uplink TTI after the queues are up to date, as
 * functions on values: picking the UEs to schedule from the queues
 * (`ScheduleUplinkUes`), sharing the sub-bands among them
 * (`DisributeSbs`) and turning each share into resource blocks
 * (`UlRbAlloc`).
 */
module PfsSelect {
  import opened TbsShape
  import opened PfsLists
  import opened Pfs
  import opened SchedConfig
  import Amc

  function Min(a: int, b: int): int { if a < b then a else b }
  function Max(a: int, b: int): int { if a < b then b else a }

  // ---------------------------------------------------------------------
  // Picking the UEs to schedule
  // ---------------------------------------------------------------------

  /**
   * What the sub-band request of a UE depends on: its TBS index (from the
   * uplink UE information), the per-index efficiency table, the resource
   * elements per resource block and the sub-band size.
   */
  datatype SbsCtx = SbsCtx(itbsOf: map<int, int>, effTbl: seq<int>, rePerRb: int, sbsSize: int)

  predicate CtxOk(c: SbsCtx, ues: map<int, PfsUlUe>)
  {
    0 < c.rePerRb && 0 < c.sbsSize &&
    (forall k :: 0 <= k < |c.effTbl| ==> c.effTbl[k] > 0) &&
    (forall r :: r in ues ==> ues[r].rnti in c.itbsOf && 0 <= c.itbsOf[ues[r].rnti] < |c.effTbl| && ues[r].effBsr >= 0)
  }

  /** Everything `GetNumSbs` needs for this record is there. */
  predicate ReqDefined(u: PfsUlUe, c: SbsCtx)
  {
    0 < c.rePerRb && 0 < c.sbsSize && u.effBsr >= 0 &&
    u.rnti in c.itbsOf && 0 <= c.itbsOf[u.rnti] < |c.effTbl| && c.effTbl[c.itbsOf[u.rnti]] > 0
  }

  lemma CtxOkDefined(c: SbsCtx, ues: map<int, PfsUlUe>, r: int)
    requires CtxOk(c, ues) && r in ues
    ensures ReqDefined(ues[r], c)
  {
  }

  /** `GetNumSbs` of a UE record. */
  function NumSbsOf(u: PfsUlUe, c: SbsCtx): (sbs: int)
    requires ReqDefined(u, c)
    ensures sbs >= 1
  {
    GetNumSbs(u.effBsr, c.effTbl[c.itbsOf[u.rnti]], c.rePerRb, c.sbsSize)
  }

  /** The records, the list of UEs to schedule and its two `uint32_t` totals. */
  datatype SchedAcc = SchedAcc(ues: map<int, PfsUlUe>, list: seq<PfsUlUe>, totPrio: int, totBw: int)

  /**
   * `PfsUlSchedUeForDat` for one queue entry: a UE that got a
   * retransmission this TTI is skipped; otherwise its record's request is
   * computed and stored, its record's priority and the request are added
   * to the totals, and the queue's copy, carrying the request, is inserted
   * into the list in request order. The source's queue entries point at
   * the records, and every record has what `GetNumSbs` needs (`CtxOk`);
   * an entry without either, which only this value model could form, is
   * skipped as well.
   */
  function SchedStep(a: SchedAcc, e: PfsUlUe, rntiAllocated: set<int>, c: SbsCtx): SchedAcc
  {
    if e.rnti in rntiAllocated || e.rnti !in a.ues || !ReqDefined(a.ues[e.rnti], c) then a
    else
      var u := a.ues[e.rnti];
      var req := NumSbsOf(u, c);
      SchedAcc(a.ues[e.rnti := u.(sbsReq := req)], InsertByReq(a.list, e.(sbsReq := req), req),
               (a.totPrio + u.pfsPrio) % U32, (a.totBw + req) % U32)
  }

  predicate KnownRntis(s: seq<PfsUlUe>, ues: map<int, PfsUlUe>)
  {
    forall k :: 0 <= k < |s| ==> s[k].rnti in ues
  }

  /** `SchedStep` over the entries of `s`, in order. */
  function SchedSeq(a: SchedAcc, s: seq<PfsUlUe>, rntiAllocated: set<int>, c: SbsCtx): SchedAcc
    decreases |s|
  {
    if |s| == 0 then a
    else SchedStep(SchedSeq(a, s[..|s| - 1], rntiAllocated, c), s[|s| - 1], rntiAllocated, c)
  }

  /** The records change only in their requests, and the context stays valid for them. */
  predicate OnlyRequests(a: SchedAcc, r: SchedAcc, c: SbsCtx)
  {
    r.ues.Keys == a.ues.Keys && (CtxOk(c, a.ues) ==> CtxOk(c, r.ues)) &&
    forall x :: x in a.ues ==> r.ues[x] == a.ues[x].(sbsReq := r.ues[x].sbsReq)
  }

  lemma OnlyRequestsTrans(a: SchedAcc, p: SchedAcc, r: SchedAcc, c: SbsCtx)
    requires OnlyRequests(a, p, c) && OnlyRequests(p, r, c)
    ensures OnlyRequests(a, r, c)
  {
    forall x | x in a.ues ensures r.ues[x] == a.ues[x].(sbsReq := r.ues[x].sbsReq) {
      assert p.ues[x] == a.ues[x].(sbsReq := p.ues[x].sbsReq);
    }
  }

  lemma SchedStepFields(a: SchedAcc, e: PfsUlUe, rntiAllocated: set<int>, c: SbsCtx)
    ensures OnlyRequests(a, SchedStep(a, e, rntiAllocated, c), c)
  {
    var r := SchedStep(a, e, rntiAllocated, c);
    if CtxOk(c, a.ues) {
      forall x | x in r.ues
        ensures r.ues[x].rnti in c.itbsOf && 0 <= c.itbsOf[r.ues[x].rnti] < |c.effTbl| && r.ues[x].effBsr >= 0
      {
        assert r.ues[x].rnti == a.ues[x].rnti && r.ues[x].effBsr == a.ues[x].effBsr;
      }
    }
  }

  /** Walking queue entries changes the records only in their requests. */
  lemma {:induction false} SchedSeqFields(a: SchedAcc, s: seq<PfsUlUe>, rntiAllocated: set<int>, c: SbsCtx)
    ensures OnlyRequests(a, SchedSeq(a, s, rntiAllocated, c), c)
    decreases |s|
  {
    if |s| == 0 {
      assert SchedSeq(a, s, rntiAllocated, c) == a;
    } else {
      var p := SchedSeq(a, s[..|s| - 1], rntiAllocated, c);
      SchedSeqFields(a, s[..|s| - 1], rntiAllocated, c);
      SchedStepFields(p, s[|s| - 1], rntiAllocated, c);
      OnlyRequestsTrans(a, p, SchedStep(p, s[|s| - 1], rntiAllocated, c), c);
    }
  }

  lemma {:induction false} SchedSeqAppend(a: SchedAcc, s: seq<PfsUlUe>, t: seq<PfsUlUe>, rntiAllocated: set<int>, c: SbsCtx)
    ensures SchedSeq(a, s + t, rntiAllocated, c) == SchedSeq(SchedSeq(a, s, rntiAllocated, c), t, rntiAllocated, c)
    decreases |t|
  {
    if |t| > 0 {
      var t' := t[..|t| - 1];
      assert (s + t)[..|s + t| - 1] == s + t';
      assert (s + t)[|s + t| - 1] == t[|t| - 1];
      SchedSeqAppend(a, s, t', rntiAllocated, c);
    } else {
      assert s + t == s;
    }
  }

  /** The invariant of the list of UEs to schedule. */
  predicate ListOk(a: SchedAcc, rntiAllocated: set<int>, c: SbsCtx)
  {
    SortedByReq(a.list) &&
    forall k :: 0 <= k < |a.list| ==>
      a.list[k].rnti in a.ues && a.list[k].rnti !in rntiAllocated && ReqDefined(a.ues[a.list[k].rnti], c) &&
      a.list[k].sbsReq == NumSbsOf(a.ues[a.list[k].rnti], c) && a.ues[a.list[k].rnti].sbsReq == a.list[k].sbsReq
  }

  lemma SchedStepOk(a: SchedAcc, e: PfsUlUe, rntiAllocated: set<int>, c: SbsCtx)
    requires ListOk(a, rntiAllocated, c)
    ensures var r := SchedStep(a, e, rntiAllocated, c);
      ListOk(r, rntiAllocated, c) && |r.list| <= |a.list| + 1 &&
      (e.rnti in rntiAllocated || e.rnti !in a.ues ==> r == a) &&
      (e.rnti !in rntiAllocated && e.rnti in a.ues && ReqDefined(a.ues[e.rnti], c) ==>
         |r.list| == |a.list| + 1 && r.ues[e.rnti].sbsReq == NumSbsOf(a.ues[e.rnti], c) &&
         r.totPrio == (a.totPrio + a.ues[e.rnti].pfsPrio) % U32)
  {
    if e.rnti !in rntiAllocated && e.rnti in a.ues && ReqDefined(a.ues[e.rnti], c) {
      var r := SchedStep(a, e, rntiAllocated, c);
      var u := a.ues[e.rnti];
      var req := NumSbsOf(u, c);
      var x := e.(sbsReq := req);
      InsertByReqSorted(a.list, x);
      var i := FirstGreaterReq(a.list, req);
      assert r.list == a.list[..i] + [x] + a.list[i..];
      forall k | 0 <= k < |r.list|
        ensures r.list[k].rnti in r.ues && r.list[k].rnti !in rntiAllocated && ReqDefined(r.ues[r.list[k].rnti], c) &&
          r.list[k].sbsReq == NumSbsOf(r.ues[r.list[k].rnti], c) && r.ues[r.list[k].rnti].sbsReq == r.list[k].sbsReq
      {
        if k < i {
          assert r.list[k] == a.list[k];
        } else if k > i {
          assert r.list[k] == a.list[k - 1];
        }
      }
    }
  }

  /**
   * Walking any sequence of queue entries keeps the list sorted by
   * request, free of UEs that got a retransmission, and in agreement
   * with the records; each entry adds at most one UE.
   */
  lemma {:induction false} SchedSeqOk(a: SchedAcc, s: seq<PfsUlUe>, rntiAllocated: set<int>, c: SbsCtx)
    requires ListOk(a, rntiAllocated, c)
    ensures var r := SchedSeq(a, s, rntiAllocated, c);
      ListOk(r, rntiAllocated, c) && |a.list| <= |r.list| <= |a.list| + |s|
    decreases |s|
  {
    if |s| > 0 {
      var s' := s[..|s| - 1];
      SchedSeqOk(a, s', rntiAllocated, c);
      SchedStepOk(SchedSeq(a, s', rntiAllocated, c), s[|s| - 1], rntiAllocated, c);
    }
  }

  /** The entries of the queues from the last index down, each queue from its head. */
  function FlattenDown(qs: seq<seq<PfsUlUe>>, n: nat): seq<PfsUlUe>
    requires n <= |qs|
  {
    if n == 0 then [] else qs[n - 1] + FlattenDown(qs, n - 1)
  }

  /** The first `n` entries, or all of them. */
  function Take(s: seq<PfsUlUe>, n: int): (r: seq<PfsUlUe>)
    ensures |r| <= |s| && |r| <= Max(n, 0)
  {
    if n <= 0 then [] else if n >= |s| then s else s[..n]
  }

  /**
   * The entries `ScheduleUplinkUes` visits: GBR queues from the highest
   * index down, then AMBR queues likewise, until `remUes` entries have
   * been visited (skipped UEs count too).
   */
  function Visited(gbr: seq<seq<PfsUlUe>>, ambr: seq<seq<PfsUlUe>>, remUes: int): seq<PfsUlUe>
  {
    Take(FlattenDown(gbr, |gbr|) + FlattenDown(ambr, |ambr|), remUes)
  }

  lemma TakeAppendShort(p: seq<PfsUlUe>, q: seq<PfsUlUe>, n: int)
    requires |p| < n
    ensures Take(p + q, n) == p + Take(q, n - |p|)
  {
    if n >= |p + q| {
    } else {
      assert (p + q)[..n] == p + q[..n - |p|];
    }
  }

  lemma TakeAppendLong(p: seq<PfsUlUe>, q: seq<PfsUlUe>, n: int)
    requires n <= |p|
    ensures Take(p + q, n) == Take(p, n)
  {
    if n > 0 {
      assert (p + q)[..n] == p[..n];
    }
  }

  lemma KnownFlatten(qs: seq<seq<PfsUlUe>>, n: nat, ues: map<int, PfsUlUe>)
    requires n <= |qs|
    requires forall i :: 0 <= i < |qs| ==> KnownRntis(qs[i], ues)
    ensures KnownRntis(FlattenDown(qs, n), ues)
  {
    if n > 0 {
      KnownFlatten(qs, n - 1, ues);
      var f := FlattenDown(qs, n);
      forall k | 0 <= k < |f| ensures f[k].rnti in ues {
        if k < |qs[n - 1]| { assert f[k] == qs[n - 1][k]; }
        else { assert f[k] == FlattenDown(qs, n - 1)[k - |qs[n - 1]|]; }
      }
    }
  }

  // ---------------------------------------------------------------------
  // Sharing the sub-bands
  // ---------------------------------------------------------------------

  /** The running values of `DisributeSbs`, all `uint32_t`. */
  datatype SbsCarry = SbsCarry(leftOver: int, leftNext: int, free: int, used: int)

  /**
   * One UE of `DisributeSbs` as written; `ueCount` is the number of UEs
   * not yet served, this one included, and `n` the length of the list.
   * Every UE but the last gets its priority's part of the sub-bands plus
   * the carries, at least one and at most its request; the carries take
   * the rest minus one, in 32 bits. The last UE gets what is left, as the
   * free count says.
   */
  function ShareStepAsWritten(e: PfsUlUe, ueCount: int, n: int, avail: int, tot: int, c: SbsCarry): (r: (int, SbsCarry))
    requires 0 < n
    ensures r.1.used == (c.used + r.0) % U32 && r.1.free == (c.free - r.0) % U32
  {
    if ueCount > 1 then
      var x := ((if tot > 0 then (e.pfsPrio * avail) % U32 / tot else avail / n) + c.leftOver + c.leftNext) % U32;
      var share := Max(Min(x, e.sbsReq), 1);
      var d := (x - share) % U32;
      (share, SbsCarry((c.leftOver + d / n - 1) % U32, (d % n - 1) % U32, (c.free - share) % U32, (c.used + share) % U32))
    else
      var share := Min(c.free, e.sbsReq);
      (share, SbsCarry(c.leftOver, c.leftNext, (c.free - share) % U32, (c.used + share) % U32))
  }

  /** `DisributeSbs` as written over the rest `lst` of a list of `n` UEs: the shares, in order, and the final carry. */
  function SharesAsWritten(lst: seq<PfsUlUe>, n: int, avail: int, tot: int, c: SbsCarry): (r: (seq<int>, SbsCarry))
    requires 0 < n
    ensures |r.0| == |lst|
  {
    if |lst| == 0 then ([], c)
    else
      var st := ShareStepAsWritten(lst[0], |lst|, n, avail, tot, c);
      var rest := SharesAsWritten(lst[1..], n, avail, tot, st.1);
      ([st.0] + rest.0, rest.1)
  }

  /**
   * Three UEs of equal priority 1 asking for five sub-bands each, with
   * two sub-bands available: the first gets one, its carry wraps to
   * about 2^32 / 3, so the second gets its full request, the free count
   * wraps too, and the last gets its full request as well: eleven
   * sub-bands for two.
   */
  lemma DisributeSbsAsWrittenOverAllocates(lst: seq<PfsUlUe>)
    requires |lst| == 3
    requires forall k :: 0 <= k < 3 ==> lst[k].pfsPrio == 1 && lst[k].sbsReq == 5
    ensures SharesAsWritten(lst, 3, 2, 3, SbsCarry(0, 0, 2, 0)).0 == [1, 5, 5]
    ensures SharesAsWritten(lst, 3, 2, 3, SbsCarry(0, 0, 2, 0)).1.used == 11
  {
    var c0 := SbsCarry(0, 0, 2, 0);
    var s1 := ShareStepAsWritten(lst[0], 3, 3, 2, 3, c0);
    assert s1.0 == 1;
    assert s1.1 == SbsCarry(1431655764, U32 - 1, 1, 1);
    var l1 := lst[1..];
    assert |l1| == 2 && l1[0] == lst[1];
    var s2 := ShareStepAsWritten(l1[0], 2, 3, 2, 3, s1.1);
    assert s2.0 == 5;
    assert s2.1.free == U32 - 4 && s2.1.used == 6;
    var l2 := l1[1..];
    assert |l2| == 1 && l2[0] == lst[2];
    var s3 := ShareStepAsWritten(l2[0], 1, 3, 2, 3, s2.1);
    assert s3.0 == 5 && s3.1.used == 11;
    assert l2[1..] == [];
    assert SharesAsWritten(l2[1..], 3, 2, 3, s3.1) == ([], s3.1);
    assert SharesAsWritten(l2, 3, 2, 3, s2.1) == ([s3.0] + [], s3.1);
    SharesAsWrittenCons(l1, 3, 2, 3, s1.1);
    assert [s3.0] + [] == [5];
    assert SharesAsWritten(l1, 3, 2, 3, s1.1) == ([s2.0] + [5], s3.1);
    assert [s2.0] + [5] == [5, 5];
    SharesAsWrittenCons(lst, 3, 2, 3, c0);
    assert [s1.0] + [5, 5] == [1, 5, 5];
    assert SharesAsWritten(lst, 3, 2, 3, c0) == ([s1.0] + [5, 5], s3.1);
  }

  lemma SharesAsWrittenCons(lst: seq<PfsUlUe>, n: int, avail: int, tot: int, c: SbsCarry)
    requires 0 < n && |lst| > 0
    ensures var st := ShareStepAsWritten(lst[0], |lst|, n, avail, tot, c);
      SharesAsWritten(lst, n, avail, tot, c) ==
        ([st.0] + SharesAsWritten(lst[1..], n, avail, tot, st.1).0, SharesAsWritten(lst[1..], n, avail, tot, st.1).1)
  {
  }

  /**
   * One UE of the distribution as evidently intended: as written, except
   * that no UE is given more sub-bands than are still free.
   */
  function ShareStep(e: PfsUlUe, ueCount: int, n: int, avail: int, tot: int, c: SbsCarry): (r: (int, SbsCarry))
    requires 0 < n && 0 <= c.free
    ensures 0 <= r.0 <= c.free && r.0 <= Max(e.sbsReq, 0) + (if e.sbsReq < 1 && ueCount > 1 then 1 else 0)
    ensures r.1.free == c.free - r.0 && r.1.used == (c.used + r.0) % U32
  {
    if ueCount > 1 then
      var x := ((if tot > 0 then (e.pfsPrio * avail) % U32 / tot else avail / n) + c.leftOver + c.leftNext) % U32;
      var share := Min(Max(Min(x, e.sbsReq), 1), c.free);
      var d := (x - share) % U32;
      (share, SbsCarry((c.leftOver + d / n - 1) % U32, (d % n - 1) % U32, c.free - share, (c.used + share) % U32))
    else
      var share := Max(Min(c.free, e.sbsReq), 0);
      (share, SbsCarry(c.leftOver, c.leftNext, c.free - share, (c.used + share) % U32))
  }

  function Shares(lst: seq<PfsUlUe>, n: int, avail: int, tot: int, c: SbsCarry): (r: (seq<int>, SbsCarry))
    requires 0 < n && 0 <= c.free
    ensures |r.0| == |lst|
  {
    if |lst| == 0 then ([], c)
    else
      var st := ShareStep(lst[0], |lst|, n, avail, tot, c);
      var rest := Shares(lst[1..], n, avail, tot, st.1);
      ([st.0] + rest.0, rest.1)
  }

  function Sum(s: seq<int>): int
  {
    if |s| == 0 then 0 else s[0] + Sum(s[1..])
  }

  /**
   * The intended distribution never hands out more sub-bands than are
   * free: the shares add up to exactly what the free count lost, each is
   * at most the UE's request, and a UE finding sub-bands free gets at
   * least one.
   */
  lemma {:induction false} SharesWithinAvailable(lst: seq<PfsUlUe>, n: int, avail: int, tot: int, c: SbsCarry)
    requires 0 < n && 0 <= c.free && 0 <= c.used && c.used + c.free < U32
    requires forall k :: 0 <= k < |lst| ==> lst[k].sbsReq >= 1
    ensures var r := Shares(lst, n, avail, tot, c);
      0 <= Sum(r.0) <= c.free && r.1.free == c.free - Sum(r.0) && r.1.used == c.used + Sum(r.0) &&
      (forall k :: 0 <= k < |lst| ==> 0 <= r.0[k] <= lst[k].sbsReq) &&
      (|lst| > 0 && c.free > 0 ==> r.0[0] >= 1)
  {
    if |lst| > 0 {
      var st := ShareStep(lst[0], |lst|, n, avail, tot, c);
      assert st.1.used == c.used + st.0;
      assert forall k :: 0 <= k < |lst[1..]| ==> lst[1..][k].sbsReq >= 1 by {
        forall k | 0 <= k < |lst[1..]| ensures lst[1..][k].sbsReq >= 1 { assert lst[1..][k] == lst[k + 1]; }
      }
      SharesWithinAvailable(lst[1..], n, avail, tot, st.1);
      var r := Shares(lst, n, avail, tot, c);
      var rest := Shares(lst[1..], n, avail, tot, st.1);
      assert r.0 == [st.0] + rest.0;
      assert r.0[1..] == rest.0;
      forall k | 0 <= k < |lst| ensures 0 <= r.0[k] <= lst[k].sbsReq {
        if k > 0 { assert r.0[k] == rest.0[k - 1] && lst[k] == lst[1..][k - 1]; }
      }
    }
  }

  /** The list of UEs to schedule with the given shares written into it. */
  function WithShares(lst: seq<PfsUlUe>, shares: seq<int>): (r: seq<PfsUlUe>)
    requires |shares| == |lst|
    ensures |r| == |lst| && forall k :: 0 <= k < |lst| ==> r[k] == lst[k].(subbandShare := shares[k])
  {
    seq(|lst|, k requires 0 <= k < |lst| => lst[k].(subbandShare := shares[k]))
  }

  /** The allocation list after `SortAndInsertUeLstSbShare` of each entry of `lst`, in order. */
  function InsertAllByShare(q: seq<PfsUlUe>, lst: seq<PfsUlUe>): seq<PfsUlUe>
    decreases |lst|
  {
    if |lst| == 0 then q else InsertByShare(InsertAllByShare(q, lst[..|lst| - 1]), lst[|lst| - 1])
  }

  lemma InsertByShareMultiset(q: seq<PfsUlUe>, e: PfsUlUe)
    ensures multiset(InsertByShare(q, e)) == multiset(q) + multiset{e}
  {
    if !(e.subbandShare == 0 && |q| > 0) {
      var i := FirstGreaterShare(q, e.subbandShare);
      assert q == q[..i] + q[i..];
    }
  }

  /**
   * The allocation list holds exactly the UEs of the list it was built
   * from, and when every UE has a share it is in ascending share order.
   */
  lemma {:induction false} InsertAllByShareOk(q: seq<PfsUlUe>, lst: seq<PfsUlUe>)
    requires SortedByShare(q)
    ensures multiset(InsertAllByShare(q, lst)) == multiset(q) + multiset(lst)
    ensures (forall k :: 0 <= k < |lst| ==> lst[k].subbandShare > 0) ==> SortedByShare(InsertAllByShare(q, lst))
    decreases |lst|
  {
    if |lst| > 0 {
      var l' := lst[..|lst| - 1];
      InsertAllByShareOk(q, l');
      var p := InsertAllByShare(q, l');
      assert lst == l' + [lst[|lst| - 1]];
      InsertByShareMultiset(p, lst[|lst| - 1]);
      if forall k :: 0 <= k < |lst| ==> lst[k].subbandShare > 0 {
        assert forall k :: 0 <= k < |l'| ==> l'[k].subbandShare > 0 by {
          forall k | 0 <= k < |l'| ensures l'[k].subbandShare > 0 { assert l'[k] == lst[k]; }
        }
        InsertByShareSorted(p, lst[|lst| - 1]);
      }
    }
  }

  // ---------------------------------------------------------------------
  // Resource blocks for each share
  // ---------------------------------------------------------------------

  /**
   * What `UlRbAlloc` reads besides the lists: each UE's TBS index and
   * `GetMaxRbs` value, the efficiency table, the resource elements per
   * resource block, the sub-band size and the TBS table.
   */
  datatype RbCtx = RbCtx(itbsOf: map<int, int>, maxRbsOf: map<int, int>, effTbl: seq<int>,
                         rePerRb: int, sbsSize: int, tbs: seq<seq<int>>)

  ghost predicate RbCtxOk(c: RbCtx)
  {
    WellShaped(c.tbs) && 0 < c.rePerRb && 0 < c.sbsSize &&
    (forall k :: 0 <= k < |c.effTbl| ==> c.effTbl[k] > 0) &&
    (forall r :: r in c.itbsOf ==> 0 <= c.itbsOf[r] < NUM_ITBS && c.itbsOf[r] < |c.effTbl|) &&
    (forall r :: r in c.maxRbsOf ==> 0 <= c.maxRbsOf[r] <= NUM_NPRB)
  }

  /** The records and buffer reports `UlRbAlloc` updates, and the prefix of the allocation list it has done. */
  datatype RbAcc = RbAcc(ues: map<int, PfsUlUe>, lcgs: map<int, seq<UlLcg>>, list: seq<PfsUlUe>)

  /** Every record's effective buffer size is a `uint32_t`; every buffer report has an LCG 0 with a size. */
  predicate RbStateOk(a: RbAcc)
  {
    (forall x :: x in a.ues ==> 0 <= a.ues[x].effBsr < U32) &&
    (forall x :: x in a.lcgs ==> |a.lcgs[x]| >= 1 && a.lcgs[x][0].bs >= 0)
  }

  /** The entry can be allocated: everything `UlRbAlloc` looks up for it exists. */
  predicate EntryOk(e: PfsUlUe, a: RbAcc, c: RbCtx)
  {
    e.rnti in a.ues && e.rnti in a.lcgs && e.rnti in c.itbsOf && e.rnti in c.maxRbsOf && e.subbandShare >= 0
  }

  /** `maxrb`: the share in resource blocks, capped by what the UE's power allows. */
  function MaxRb(e: PfsUlUe, c: RbCtx): int
    requires e.rnti in c.maxRbsOf
  {
    Min((e.subbandShare * c.sbsSize) % U32, c.maxRbsOf[e.rnti])
  }

  /** `nPrb` as written: the request, capped; a request of zero blocks stays zero. */
  function NprbAsWritten(e: PfsUlUe, effBsr: int, c: RbCtx): int
    requires RbCtxOk(c) && e.rnti in c.itbsOf && e.rnti in c.maxRbsOf && effBsr >= 0
  {
    Min(PrbRequest(effBsr, c.effTbl[c.itbsOf[e.rnti]], c.rePerRb), MaxRb(e, c))
  }

  /**
   * A UE with one byte buffered, at the lowest efficiency the table holds
   * and 144 resource elements per block, is given zero resource blocks,
   * and `GetUlTbSizeFromItbs` is then asked for the size of a transport
   * block on zero resource blocks, which the TBS table does not have.
   */
  lemma UlRbAllocAsWrittenZeroPrb(e: PfsUlUe, c: RbCtx)
    requires RbCtxOk(c) && e.rnti in c.itbsOf && e.rnti in c.maxRbsOf
    requires c.effTbl[c.itbsOf[e.rnti]] == 97 && c.rePerRb == 144
    ensures PrbRequest(1, c.effTbl[c.itbsOf[e.rnti]], c.rePerRb) == 0
    ensures NprbAsWritten(e, 1, c) == 0
  {
    assert 1 * 1024 * 8 / 97 == 84;
  }

  /**
   * `nPrb` as evidently intended: at least one resource block is asked
   * for, as the later test on `PrbReq` means to ensure, before the cap.
   */
  function Nprb(e: PfsUlUe, effBsr: int, c: RbCtx): (n: int)
    requires RbCtxOk(c) && e.rnti in c.itbsOf && e.rnti in c.maxRbsOf && effBsr >= 0 && e.subbandShare >= 0
    ensures 0 <= n <= MaxRb(e, c) && n <= c.maxRbsOf[e.rnti] <= NUM_NPRB
    ensures n == 0 <==> MaxRb(e, c) == 0
    ensures n >= Min(PrbRequest(effBsr, c.effTbl[c.itbsOf[e.rnti]], c.rePerRb), MaxRb(e, c))
    ensures n >= 1 ==> n == NprbAsWritten(e, effBsr, c) || NprbAsWritten(e, effBsr, c) == 0
  {
    Min(Max(PrbRequest(effBsr, c.effTbl[c.itbsOf[e.rnti]], c.rePerRb), 1), MaxRb(e, c))
  }

  /** `bytesAlloc`: the bytes of the transport block on `nPrb` blocks; none without blocks. */
  function AllocBytes(t: seq<seq<int>>, itbs: int, nPrb: int): (b: int)
    requires WellShaped(t) && 0 <= itbs < NUM_ITBS && 0 <= nPrb <= NUM_NPRB
    ensures nPrb == 0 ==> b == 0
    ensures nPrb > 0 ==> 2 * nPrb <= b <= MAX_TBS / 8
  {
    if nPrb == 0 then 0 else Amc.GetUlTbSizeFromItbs(t, itbs, nPrb) / 8
  }

  /**
   * `UlRbAlloc` for one entry: the UE is given its resource blocks, the
   * granted bytes come off LCG 0's buffer (floored at zero) and off the
   * record's effective buffer size (in `uint32_t`, so this one wraps
   * when the grant exceeds it).
   */
  function RbStep(a: RbAcc, e: PfsUlUe, c: RbCtx): RbAcc
    requires RbCtxOk(c) && RbStateOk(a) && EntryOk(e, a, c)
  {
    var u := a.ues[e.rnti];
    var n := Nprb(e, u.effBsr, c);
    var bytes := AllocBytes(c.tbs, c.itbsOf[e.rnti], n);
    var l := a.lcgs[e.rnti];
    var bs := if l[0].bs > bytes then l[0].bs - bytes else 0;
    RbAcc(a.ues[e.rnti := u.(effBsr := (u.effBsr - bytes) % U32)],
          a.lcgs[e.rnti := l[0 := l[0].(bs := bs)]],
          a.list + [e.(nPrb := n)])
  }

  /**
   * The allocation leaves every record as it was but for its effective
   * buffer size, and every buffer report as it was but for a smaller
   * LCG 0 buffer.
   */
  predicate Touched(a: RbAcc, r: RbAcc)
    requires r.ues.Keys == a.ues.Keys && r.lcgs.Keys == a.lcgs.Keys
    requires RbStateOk(a) && RbStateOk(r)
  {
    (forall x :: x in a.ues ==> r.ues[x] == a.ues[x].(effBsr := r.ues[x].effBsr)) &&
    (forall x :: x in a.lcgs ==>
       |r.lcgs[x]| == |a.lcgs[x]| && r.lcgs[x] == a.lcgs[x][0 := a.lcgs[x][0].(bs := r.lcgs[x][0].bs)] &&
       r.lcgs[x][0].bs <= a.lcgs[x][0].bs)
  }

  /**
   * The grant `g` of entry `e`: the entry with its resource blocks set,
   * never more than its share and power allow, and at least one whenever
   * they allow one.
   */
  predicate GrantOk(g: PfsUlUe, e: PfsUlUe, c: RbCtx)
  {
    e.rnti in c.maxRbsOf && g == e.(nPrb := g.nPrb) &&
    0 <= g.nPrb <= MaxRb(e, c) && (MaxRb(e, c) > 0 ==> g.nPrb >= 1)
  }

  /**
   * One step keeps the records and buffer reports it looks up, keeps
   * effective buffer sizes `uint32_t` and buffers non-negative, touches
   * nothing else, and appends the entry's grant to the list.
   */
  lemma RbStepOk(a: RbAcc, e: PfsUlUe, c: RbCtx)
    requires RbCtxOk(c) && RbStateOk(a) && EntryOk(e, a, c)
    ensures var r := RbStep(a, e, c);
      r.ues.Keys == a.ues.Keys && r.lcgs.Keys == a.lcgs.Keys && RbStateOk(r) &&
      Touched(a, r) && |r.list| == |a.list| + 1 && r.list[..|a.list|] == a.list &&
      GrantOk(r.list[|a.list|], e, c)
  {
    var r := RbStep(a, e, c);
    var u := a.ues[e.rnti];
    var bytes := AllocBytes(c.tbs, c.itbsOf[e.rnti], Nprb(e, u.effBsr, c));
    assert r.ues[e.rnti].effBsr == (u.effBsr - bytes) % U32;
  }

  predicate AllEntriesOk(s: seq<PfsUlUe>, a: RbAcc, c: RbCtx)
  {
    forall k :: 0 <= k < |s| ==> EntryOk(s[k], a, c)
  }

  /**
   * `RbStep` over the entries of `s`, in order. An entry that cannot be
   * allocated is passed over; when every entry can be at the start, none
   * is (`RbSeqShape`).
   */
  function RbSeq(a: RbAcc, s: seq<PfsUlUe>, c: RbCtx): RbAcc
    requires RbCtxOk(c)
    decreases |s|
  {
    if |s| == 0 then a
    else
      var p := RbSeq(a, s[..|s| - 1], c);
      var e := s[|s| - 1];
      if RbStateOk(p) && EntryOk(e, p, c) then RbStep(p, e, c) else p
  }

  /** The pass keeps the keys and the state invariant, and appends one grant per entry. */
  lemma {:induction false} RbSeqShape(a: RbAcc, s: seq<PfsUlUe>, c: RbCtx)
    requires RbCtxOk(c) && RbStateOk(a) && AllEntriesOk(s, a, c)
    ensures var r := RbSeq(a, s, c);
      r.ues.Keys == a.ues.Keys && r.lcgs.Keys == a.lcgs.Keys && RbStateOk(r) &&
      |r.list| == |a.list| + |s| && r.list[..|a.list|] == a.list
    decreases |s|
  {
    if |s| > 0 {
      var s' := s[..|s| - 1];
      assert AllEntriesOk(s', a, c) by {
        forall j | 0 <= j < |s'| ensures EntryOk(s'[j], a, c) { assert s'[j] == s[j]; }
      }
      RbSeqShape(a, s', c);
      var p := RbSeq(a, s', c);
      assert EntryOk(s[|s| - 1], p, c);
      RbStepOk(p, s[|s| - 1], c);
      var r := RbStep(p, s[|s| - 1], c);
      assert r.list[..|a.list|] == p.list[..|p.list|][..|a.list|];
    }
  }

  /**
   * `UlRbAlloc` grants every entry resource blocks within its bounds, in
   * list order, and changes nothing but effective buffer sizes and LCG 0
   * buffers, which never grow.
   */
  lemma {:induction false} RbSeqGrants(a: RbAcc, s: seq<PfsUlUe>, c: RbCtx)
    requires RbCtxOk(c) && RbStateOk(a) && AllEntriesOk(s, a, c)
    ensures var r := RbSeq(a, s, c);
      r.ues.Keys == a.ues.Keys && r.lcgs.Keys == a.lcgs.Keys && RbStateOk(r) &&
      Touched(a, r) && |r.list| == |a.list| + |s| &&
      forall k :: |a.list| <= k < |r.list| ==> GrantOk(r.list[k], s[k - |a.list|], c)
    decreases |s|
  {
    RbSeqShape(a, s, c);
    if |s| > 0 {
      var s' := s[..|s| - 1];
      assert AllEntriesOk(s', a, c) by {
        forall j | 0 <= j < |s'| ensures EntryOk(s'[j], a, c) { assert s'[j] == s[j]; }
      }
      RbSeqGrants(a, s', c);
      RbSeqShape(a, s', c);
      var p := RbSeq(a, s', c);
      assert EntryOk(s[|s| - 1], p, c);
      RbStepOk(p, s[|s| - 1], c);
      var r := RbStep(p, s[|s| - 1], c);
      assert r == RbSeq(a, s, c);
      assert forall k :: 0 <= k < |p.list| ==> r.list[k] == p.list[k];
      TouchedTrans(a, p, r);
      forall k | |a.list| <= k < |r.list| ensures GrantOk(r.list[k], s[k - |a.list|], c) {
        if k < |p.list| {
          assert s[k - |a.list|] == s'[k - |a.list|];
        }
      }
    }
  }

  lemma TouchedTrans(a: RbAcc, p: RbAcc, r: RbAcc)
    requires p.ues.Keys == a.ues.Keys && p.lcgs.Keys == a.lcgs.Keys
    requires r.ues.Keys == a.ues.Keys && r.lcgs.Keys == a.lcgs.Keys
    requires RbStateOk(a) && RbStateOk(p) && RbStateOk(r)
    requires Touched(a, p) && Touched(p, r)
    ensures Touched(a, r)
  {
    forall x | x in a.lcgs
      ensures r.lcgs[x] == a.lcgs[x][0 := a.lcgs[x][0].(bs := r.lcgs[x][0].bs)]
    {
      assert p.lcgs[x] == a.lcgs[x][0 := a.lcgs[x][0].(bs := p.lcgs[x][0].bs)];
    }
  }
}
