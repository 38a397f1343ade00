/**
 * The uplink HARQ processes of `pw-ff-mac-scheduler.cc`: per RNTI the
 * current process id (`m_ulHarqCurrentProcessId`), eight retransmission
 * counters (`m_ulHarqProcessesStatus`) and eight stored UL DCIs
 * (`m_ulHarqProcessesDciBuffer`), and the retransmission pass of the
 * uplink trigger that replays a failed transmission on exactly the
 * resource blocks it had.
 */
module UlHarq {
  import opened DlHarq
  import Power

  /** The fields of `UlDciListElement_s` the scheduler sets from its state; the others are constants. */
  datatype UlDci = UlDci(rnti: int, rbStart: int, rbLen: int, mcs: int, tbSize: int, ndi: int, tpc: int)

  /** A value-initialised DCI, as `resize (8)` leaves the buffer. */
  const EmptyUlDci := UlDci(0, 0, 0, 0, 0, 0, 0)

  /** Retransmissions after which a process is dropped. */
  const MAX_UL_RETX := 3

  /** One UE's uplink HARQ entries: the three maps keep the same keys, so they are one record here. */
  datatype UlUe = UlUe(currentId: int, status: seq<int>, dci: seq<UlDci>)

  /** The entries `DoCschedUeConfigReq` creates: process 0, counters 0, empty DCIs. */
  const NewUlUe := UlUe(0, seq(HARQ_PROC_NUM, _ => 0), seq(HARQ_PROC_NUM, _ => EmptyUlDci))

  /** A stored DCI names resource blocks inside the uplink bandwidth. */
  predicate DciFits(d: UlDci, bandwidth: int)
  {
    0 <= d.rbStart && 0 <= d.rbLen && d.rbStart + d.rbLen <= bandwidth
  }

  /** Eight processes, a current one, counters never past the drop limit. */
  predicate UlUeOk(u: UlUe, bandwidth: int)
  {
    0 <= u.currentId < HARQ_PROC_NUM && |u.status| == HARQ_PROC_NUM && |u.dci| == HARQ_PROC_NUM &&
    (forall k :: 0 <= k < HARQ_PROC_NUM ==> 0 <= u.status[k] <= MAX_UL_RETX) &&
    (forall k :: 0 <= k < HARQ_PROC_NUM ==> DciFits(u.dci[k], bandwidth))
  }

  predicate UlUesOk(ues: map<int, UlUe>, bandwidth: int)
  {
    forall r :: r in ues ==> UlUeOk(ues[r], bandwidth)
  }

  lemma NewUlUeOk(bandwidth: int)
    requires bandwidth >= 0
    ensures UlUeOk(NewUlUe, bandwidth)
  {
  }

  /** Every UE's current process moves on by one, modulo the process count. */
  function Advanced(ues: map<int, UlUe>): (r: map<int, UlUe>)
    ensures r.Keys == ues.Keys
  {
    map x | x in ues :: ues[x].(currentId := (ues[x].currentId + 1) % HARQ_PROC_NUM)
  }

  function AdvancedN(ues: map<int, UlUe>, n: nat): map<int, UlUe>
  {
    if n == 0 then ues else Advanced(AdvancedN(ues, n - 1))
  }

  /**
   * After n TTIs a UE's process id has moved on by n modulo 8, and
   * nothing else of its record changed: after 8 TTIs it is back.
   */
  lemma {:induction false} AdvancedNSpec(ues: map<int, UlUe>, n: nat, x: int)
    requires x in ues && 0 <= ues[x].currentId < HARQ_PROC_NUM
    ensures x in AdvancedN(ues, n)
    ensures AdvancedN(ues, n)[x] == ues[x].(currentId := (ues[x].currentId + n) % HARQ_PROC_NUM)
  {
    if n > 0 {
      AdvancedNSpec(ues, n - 1, x);
      ModSucc(ues[x].currentId + (n - 1));
    }
  }

  lemma ModSucc(a: int)
    ensures (a % HARQ_PROC_NUM + 1) % HARQ_PROC_NUM == (a + 1) % HARQ_PROC_NUM
  {
  }

  lemma AdvancedOk(ues: map<int, UlUe>, bandwidth: int)
    requires UlUesOk(ues, bandwidth)
    ensures UlUesOk(Advanced(ues), bandwidth)
  {
  }

  /** The reception status of `UlInfoListElement_s`. */
  datatype Reception = Ok | NotOk | NotValid

  datatype UlInfo = UlInfo(rnti: int, reception: Reception)

  /** A call of the outer loop: `HarqCrcFail` or `HarqCrcOk` for the RNTI. */
  datatype CrcEvent = CrcFail(rnti: int) | CrcOk(rnti: int)

  /**
   * What the retransmission pass works on besides the HARQ records: the
   * uplink RB map (true = used), the RNTI per RB, the RBs allocated so
   * far, the emitted DCIs, the RNTIs that got a retransmission, the
   * number of UEs that may still be scheduled, and the outer-loop calls
   * made, in order.
   */
  datatype Pass = Pass(ues: map<int, UlUe>, rbMap: seq<bool>, allocMap: seq<int>, rbAllocated: int,
                       dcis: seq<UlDci>, served: set<int>, remUes: int, crc: seq<CrcEvent>)

  /**
   * The process a NACK refers to: `HARQ_PERIOD` TTIs before the current
   * one. The difference is cast to `uint8_t` before the modulo, which
   * keeps it non-negative.
   */
  function RetxProcess(currentId: int, harqPeriod: int): (h: int)
    ensures 0 <= h < HARQ_PROC_NUM
    ensures (h - (currentId - harqPeriod)) % HARQ_PROC_NUM == 0
  {
    ((currentId - harqPeriod) % 256) % HARQ_PROC_NUM
  }

  predicate RangeFree(rbMap: seq<bool>, d: UlDci)
    requires 0 <= d.rbStart && d.rbStart + d.rbLen <= |rbMap|
  {
    forall j :: d.rbStart <= j < d.rbStart + d.rbLen ==> !rbMap[j]
  }

  predicate InRange(d: UlDci, j: int)
  {
    d.rbStart <= j < d.rbStart + d.rbLen
  }

  predicate PassOk(p: Pass)
  {
    UlUesOk(p.ues, |p.rbMap|) && |p.allocMap| == |p.rbMap|
  }

  /** Every NACKed RNTI has HARQ entries and a power record: the pass dereferences both. */
  predicate InfosOk(infos: seq<UlInfo>, ues: map<int, UlUe>, ueUl: map<int, Power.UeInfo>)
  {
    forall i :: 0 <= i < |infos| && infos[i].reception == NotOk ==> infos[i].rnti in ues && infos[i].rnti in ueUl
  }

  /** The UE record after a retransmission from process h: the counter moves to the current process, h is freed. */
  function Moved(u: UlUe, h: int, d: UlDci): UlUe
    requires 0 <= u.currentId < |u.status| && 0 <= h < |u.status| && |u.dci| == |u.status|
  {
    u.(status := u.status[u.currentId := u.status[h] + 1][h := 0], dci := u.dci[u.currentId := d])
  }

  /**
   * One entry of `m_ulInfoList`. Anything but `NotOk` counts as a
   * success. A NACK first calls `HarqCrcFail` unless the UE bundles
   * TTIs; a process that has been retransmitted three times is dropped
   * (with `HarqCrcFail` for a bundling UE); one whose RBs are not all
   * free is skipped; otherwise its DCI is sent again with ndi 0 on the
   * same RBs.
   */
  function Step(p: Pass, info: UlInfo, ueUl: map<int, Power.UeInfo>, harqPeriod: int): (r: Pass)
    requires PassOk(p)
    requires info.reception == NotOk ==> info.rnti in p.ues && info.rnti in ueUl
    ensures PassOk(r) && |r.rbMap| == |p.rbMap| && r.ues.Keys == p.ues.Keys
  {
    var x := info.rnti;
    if info.reception != NotOk then p.(crc := p.crc + [CrcOk(x)])
    else
      var bundling := ueUl[x].isTtiBundling;
      var crc := if bundling then p.crc else p.crc + [CrcFail(x)];
      var u := p.ues[x];
      var h := RetxProcess(u.currentId, harqPeriod);
      var d := u.dci[h];
      if u.status[h] >= MAX_UL_RETX then p.(crc := if bundling then crc + [CrcFail(x)] else crc)
      else if !RangeFree(p.rbMap, d) then p.(crc := crc)
      else
        var d' := d.(ndi := 0);
        p.(ues := p.ues[x := Moved(u, h, d')],
           rbMap := seq(|p.rbMap|, j requires 0 <= j < |p.rbMap| => p.rbMap[j] || InRange(d, j)),
           allocMap := seq(|p.allocMap|, j requires 0 <= j < |p.allocMap| => if InRange(d, j) then d.rnti else p.allocMap[j]),
           rbAllocated := p.rbAllocated + d.rbLen,
           dcis := p.dcis + [d'], served := p.served + {d.rnti}, remUes := p.remUes - 1, crc := crc)
  }

  /** The loop over `m_ulInfoList`, which stops once no UE may be scheduled any more. */
  function PassFrom(p: Pass, infos: seq<UlInfo>, ueUl: map<int, Power.UeInfo>, harqPeriod: int): (r: Pass)
    requires PassOk(p) && InfosOk(infos, p.ues, ueUl)
    ensures PassOk(r) && |r.rbMap| == |p.rbMap| && r.ues.Keys == p.ues.Keys
    decreases |infos|
  {
    if infos == [] || p.remUes == 0 then p
    else PassFrom(Step(p, infos[0], ueUl, harqPeriod), infos[1..], ueUl, harqPeriod)
  }

  /** An RB that is used stays used, and the RNTI map changes only on RBs that were free. */
  predicate Grows(p: Pass, q: Pass)
  {
    |p.rbMap| == |q.rbMap| == |p.allocMap| == |q.allocMap| &&
    (forall j :: 0 <= j < |p.rbMap| && p.rbMap[j] ==> q.rbMap[j] && q.allocMap[j] == p.allocMap[j]) &&
    p.served <= q.served && |p.dcis| <= |q.dcis| && q.dcis[..|p.dcis|] == p.dcis
  }

  /**
   * The properties of one entry: a drop or a skip emits nothing and
   * leaves the RB map and the HARQ records alone; a retransmission
   * claims exactly its DCI's RBs, all of which were free, and moves the
   * counter to the current process as old+1 with the old process freed.
   */
  lemma StepSpec(p: Pass, info: UlInfo, ueUl: map<int, Power.UeInfo>, harqPeriod: int)
    requires PassOk(p) && info.reception == NotOk && info.rnti in p.ues && info.rnti in ueUl
    ensures var r := Step(p, info, ueUl, harqPeriod);
      var u := p.ues[info.rnti];
      var h := RetxProcess(u.currentId, harqPeriod);
      var d := u.dci[h];
      Grows(p, r) &&
      (u.status[h] >= MAX_UL_RETX || !RangeFree(p.rbMap, d) ==>
         r.ues == p.ues && r.rbMap == p.rbMap && r.allocMap == p.allocMap && r.dcis == p.dcis && r.remUes == p.remUes) &&
      (u.status[h] < MAX_UL_RETX && RangeFree(p.rbMap, d) ==>
         r.dcis == p.dcis + [d.(ndi := 0)] && r.remUes == p.remUes - 1 && r.served == p.served + {d.rnti} &&
         r.ues[info.rnti].status[u.currentId] == (if h == u.currentId then 0 else u.status[h] + 1) &&
         r.ues[info.rnti].status[h] == 0 &&
         (forall j :: 0 <= j < |p.rbMap| ==> (r.rbMap[j] <==> p.rbMap[j] || InRange(d, j))) &&
         (forall j :: 0 <= j < |p.rbMap| && InRange(d, j) ==> !p.rbMap[j] && r.allocMap[j] == d.rnti))
  {
  }

  /** An acknowledgement only calls `HarqCrcOk`. */
  lemma StepAck(p: Pass, info: UlInfo, ueUl: map<int, Power.UeInfo>, harqPeriod: int)
    requires PassOk(p) && info.reception != NotOk
    ensures Step(p, info, ueUl, harqPeriod) == p.(crc := p.crc + [CrcOk(info.rnti)])
  {
  }

  lemma GrowsTrans(p: Pass, q: Pass, r: Pass)
    requires Grows(p, q) && Grows(q, r)
    ensures Grows(p, r)
  {
    assert r.dcis[..|p.dcis|] == r.dcis[..|q.dcis|][..|p.dcis|];
  }

  /**
   * Over the whole pass no used RB is taken again or re-labelled, DCIs
   * are only appended, and at most one retransmission is sent per
   * scheduling slot in `remUes`.
   */
  lemma {:induction false} PassGrows(p: Pass, infos: seq<UlInfo>, ueUl: map<int, Power.UeInfo>, harqPeriod: int)
    requires PassOk(p) && InfosOk(infos, p.ues, ueUl)
    ensures var r := PassFrom(p, infos, ueUl, harqPeriod);
      Grows(p, r) && |r.dcis| - |p.dcis| == p.remUes - r.remUes
    decreases |infos|
  {
    if infos != [] && p.remUes != 0 {
      var q := Step(p, infos[0], ueUl, harqPeriod);
      if infos[0].reception == NotOk {
        StepSpec(p, infos[0], ueUl, harqPeriod);
      }
      assert InfosOk(infos[1..], q.ues, ueUl) by {
        forall i | 0 <= i < |infos[1..]| && infos[1..][i].reception == NotOk
          ensures infos[1..][i].rnti in q.ues
        {
          assert infos[1..][i] == infos[i + 1];
        }
      }
      PassGrows(q, infos[1..], ueUl, harqPeriod);
      GrowsTrans(p, q, PassFrom(q, infos[1..], ueUl, harqPeriod));
    }
  }

  /**
   * Two retransmissions of one pass never share an RB: every DCI added
   * claimed RBs that were free when it was placed, and the RB map keeps
   * what it marked.
   */
  ghost predicate Disjoint(ds: seq<UlDci>)
  {
    forall a, b, j :: 0 <= a < b < |ds| && InRange(ds[a], j) ==> !InRange(ds[b], j)
  }

  /** The DCIs appended so far own their RBs in the RB map. */
  ghost predicate Owned(p: Pass, base: int)
  {
    0 <= base <= |p.dcis| &&
    (forall a, j {:trigger InRange(p.dcis[a], j)} :: base <= a < |p.dcis| && InRange(p.dcis[a], j) ==> 0 <= j < |p.rbMap| && p.rbMap[j])
  }

  lemma OwnedSame(p: Pass, q: Pass, base: int)
    requires Owned(p, base) && q.dcis == p.dcis && q.rbMap == p.rbMap
    ensures Owned(q, base)
  {
    forall a, j | base <= a < |q.dcis| && InRange(q.dcis[a], j)
      ensures 0 <= j < |q.rbMap| && q.rbMap[j]
    {
      assert InRange(p.dcis[a], j);
    }
  }

  lemma {:induction false} PassDisjoint(p: Pass, infos: seq<UlInfo>, ueUl: map<int, Power.UeInfo>, harqPeriod: int, base: int)
    requires PassOk(p) && InfosOk(infos, p.ues, ueUl)
    requires Owned(p, base) && Disjoint(p.dcis[base..])
    ensures var r := PassFrom(p, infos, ueUl, harqPeriod);
      Owned(r, base) && Disjoint(r.dcis[base..])
    decreases |infos|
  {
    if infos != [] && p.remUes != 0 {
      var q := Step(p, infos[0], ueUl, harqPeriod);
      if infos[0].reception == NotOk {
        StepSpec(p, infos[0], ueUl, harqPeriod);
        var u := p.ues[infos[0].rnti];
        var h := RetxProcess(u.currentId, harqPeriod);
        var d := u.dci[h];
        if u.status[h] < MAX_UL_RETX && RangeFree(p.rbMap, d) {
          assert q.dcis == p.dcis + [d.(ndi := 0)];
          forall a, j | base <= a < |q.dcis| && InRange(q.dcis[a], j)
            ensures 0 <= j < |q.rbMap| && q.rbMap[j]
          {
            if a < |p.dcis| {
              assert q.dcis[a] == p.dcis[a];
                } else {
              assert q.dcis[a] == d.(ndi := 0);
              assert InRange(d, j) && DciFits(d, |p.rbMap|);
            }
          }
          forall a, b, j | 0 <= a < b < |q.dcis[base..]| && InRange(q.dcis[base..][a], j)
            ensures !InRange(q.dcis[base..][b], j)
          {
            assert q.dcis[base..][a] == q.dcis[base + a];
            assert q.dcis[base..][b] == q.dcis[base + b];
            if b + base < |p.dcis| {
              assert p.dcis[base..][a] == p.dcis[base + a] && p.dcis[base..][b] == p.dcis[base + b];
            } else {
              assert p.dcis[base + a] == q.dcis[base + a];
              assert p.rbMap[j];
            }
          }
        } else {
          assert q.dcis == p.dcis && q.rbMap == p.rbMap;
          OwnedSame(p, q, base);
        }
      } else {
        assert q.dcis == p.dcis && q.rbMap == p.rbMap;
        OwnedSame(p, q, base);
      }
      assert InfosOk(infos[1..], q.ues, ueUl) by {
        forall i | 0 <= i < |infos[1..]| && infos[1..][i].reception == NotOk
          ensures infos[1..][i].rnti in q.ues
        {
          assert infos[1..][i] == infos[i + 1];
        }
      }
      PassDisjoint(q, infos[1..], ueUl, harqPeriod, base);
    }
  }

  /** The HARQ records of the scheduler, updated in place. */
  class UlHarqProcesses {
    /** `m_harqOn`. */
    const harqOn: bool
    /** `HARQ_PERIOD`, from a header that is not part of this model. */
    const harqPeriod: int
    /** The uplink bandwidth in RBs, which bounds every stored DCI. */
    const bandwidth: int
    var ues: map<int, UlUe>

    predicate Valid()
      reads this
    {
      bandwidth >= 0 && UlUesOk(ues, bandwidth) && forall r :: r in ues ==> 0 <= r < RNTI_LIMIT
    }

    constructor (harqOn: bool, harqPeriod: int, bandwidth: int)
      requires bandwidth >= 0
      ensures Valid() && ues == map[]
      ensures this.harqOn == harqOn && this.harqPeriod == harqPeriod && this.bandwidth == bandwidth
    {
      this.harqOn := harqOn;
      this.harqPeriod := harqPeriod;
      this.bandwidth := bandwidth;
      ues := map[];
    }

    /**
     * The uplink HARQ part of `DoCschedUeConfigReq`: an RNTI not seen
     * before gets idle processes starting at process 0; a known RNTI keeps
     * its entries.
     */
    method ConfigureUe(rnti: int)
      requires Valid() && 0 <= rnti < RNTI_LIMIT
      modifies this
      ensures Valid()
      ensures rnti in old(ues) ==> ues == old(ues)
      ensures rnti !in old(ues) ==> ues == old(ues)[rnti := NewUlUe]
    {
      if rnti !in ues {
        NewUlUeOk(bandwidth);
        ues := ues[rnti := NewUlUe];
      }
    }

    /** The uplink HARQ part of `DoCschedUeReleaseReq`. */
    method ReleaseUe(rnti: int)
      requires Valid()
      modifies this
      ensures Valid() && ues == old(ues) - {rnti}
    {
      ues := ues - {rnti};
    }

    /** The start of the downlink trigger: every UE's uplink process id moves on by one. */
    method AdvanceProcessIds()
      requires Valid()
      modifies this
      ensures Valid() && ues == Advanced(old(ues))
    {
      var u := ues;
      for r := 0 to RNTI_LIMIT
        invariant unchanged(this)
        invariant u.Keys == ues.Keys
        invariant forall x :: x in u ==>
          u[x] == if x >= r then ues[x] else ues[x].(currentId := (ues[x].currentId + 1) % HARQ_PROC_NUM)
      {
        if r in u {
          u := u[r := u[r].(currentId := (u[r].currentId + 1) % HARQ_PROC_NUM)];
        }
      }
      assert u == Advanced(ues);
      AdvancedOk(ues, bandwidth);
      ues := u;
    }

    /** Keep a new transmission's DCI in the UE's current process, for a later retransmission. */
    method StoreDci(rnti: int, d: UlDci)
      requires Valid() && rnti in ues && DciFits(d, bandwidth)
      modifies this
      ensures Valid()
      ensures ues == old(ues)[rnti := old(ues)[rnti].(dci := old(ues)[rnti].dci[old(ues)[rnti].currentId := d])]
    {
      var u := ues[rnti];
      ues := ues[rnti := u.(dci := u.dci[u.currentId := d])];
    }

    /**
     * The HARQ pass of the uplink trigger over `m_ulInfoList`, when HARQ
     * is on. `rbMap` holds the RBs the fractional frequency reuse takes
     * and those of this TTI's random-access grants; `allocMap` the RNTI
     * per RB.
     */
    method ProcessUlHarq(infos: seq<UlInfo>, ueUl: map<int, Power.UeInfo>, rbMap: seq<bool>, allocMap: seq<int>,
                         rbAllocated: int, remUes: int) returns (r: Pass)
      requires Valid() && |rbMap| == bandwidth && |allocMap| == bandwidth && InfosOk(infos, ues, ueUl)
      modifies this
      ensures Valid() && ues == r.ues
      ensures var p := Pass(old(ues), rbMap, allocMap, rbAllocated, [], {}, remUes, []);
        r == if harqOn then PassFrom(p, infos, ueUl, harqPeriod) else p
    {
      var p0 := Pass(ues, rbMap, allocMap, rbAllocated, [], {}, remUes, []);
      r := p0;
      if harqOn {
        var i := 0;
        while i < |infos| && r.remUes != 0
          invariant 0 <= i <= |infos| && PassOk(r) && r.ues.Keys == ues.Keys && |r.rbMap| == bandwidth
          invariant InfosOk(infos[i..], r.ues, ueUl)
          invariant PassFrom(r, infos[i..], ueUl, harqPeriod) == PassFrom(p0, infos, ueUl, harqPeriod)
          decreases |infos| - i
        {
          assert infos[i..][0] == infos[i] && infos[i..][1..] == infos[i + 1..];
          r := Step(r, infos[i], ueUl, harqPeriod);
          i := i + 1;
        }
        assert infos[i..] == [] || r.remUes == 0;
        ues := r.ues;
      }
    }
  }
}
