/**
 * The new-data part of the downlink proportional-fair scheduler
 * (`DoSchedDlTriggerReq` in `pw-ff-mac-scheduler.cc`), as functions of
 * the scheduler's state: the RBG pass that gives every free RBG to the
 * UE of greatest achievable rate over average throughput, the grouping
 * of each UE's RBGs into one DCI with its RLC PDUs, and the update of
 * the average throughputs. The loops of module DlPfPass run these steps
 * and are proved to compute them.
 */
module DlPf {
  import opened DlHarq
  import opened DlRlc
  import opened RbgBitmap
  import opened TbsShape
  import opened UplinkConfig
  import Amc
  import Power

  datatype Option<T> = None | Some(value: T)

  /** `pw_pfsFlowPerf_t` without its start time: bytes sent in all and in this TTI, and the average throughput. */
  datatype FlowPerf = FlowPerf(totalBytes: int, lastTtiBytes: int, avgThr: real)

  /** A flow as the logical-channel configuration creates it: nothing sent, average throughput 1. */
  const NewFlow := FlowPerf(0, 0, 1.0)

  /** `m_timeWindow`, in TTIs. */
  const TIME_WINDOW: real := 99.0

  /**
   * What the new-data pass reads besides the per-UE records: the
   * transport block size table, the RBG size and the number of RBGs of
   * the cell, per RNTI the number of layers of its transmission mode
   * (`m_uesTxMode` through `TxMode2LayerNum`) and its last aperiodic
   * sub-band report (`m_a30CqiRxed`: per RBG, one CQI per layer),
   * whether HARQ is on, the uplink efficiency mode and the TTI counter.
   */
  datatype Cell = Cell(tbs: seq<seq<int>>, rbgSize: int, rbgNum: int, layers: map<int, int>,
                       a30: map<int, seq<seq<int>>>, harqOn: bool, effState: EfficiencyState, tti: int)

  /**
   * The scheduler maps the pass reads and writes: the flow statistics,
   * the downlink HARQ records, the RLC buffer reports and the uplink
   * power records (`ueUl`), which carry the TPC command of the DCI.
   */
  datatype DlState = DlState(flows: map<int, FlowPerf>, ues: map<int, DlUe>,
                             reports: map<FlowId, RlcReport>, ueUl: map<int, Power.UeInfo>)

  /** A sub-band report entry: at least one CQI (the pass reads the first), each in 0..15. */
  predicate CqisOk(sb: seq<int>)
  {
    |sb| >= 1 && forall k :: 0 <= k < |sb| ==> 0 <= sb[k] <= 15
  }

  predicate SubbandsOk(hl: seq<seq<int>>)
  {
    forall i :: 0 <= i < |hl| ==> CqisOk(hl[i])
  }

  /**
   * The cell as the pass needs it: at most 32 RBGs of 1 to 4 resource
   * blocks within 110 resource blocks, one or two layers per UE, and a
   * report entry for every RBG, which the pass reads with `at`.
   */
  ghost predicate CellOk(c: Cell)
  {
    WellShaped(c.tbs) && 1 <= c.rbgSize <= 4 && 0 <= c.rbgNum <= BITMAP_BITS && c.rbgNum * c.rbgSize <= NUM_NPRB &&
    (forall r :: r in c.layers ==> 1 <= c.layers[r] <= NUM_LAYERS) &&
    (forall r :: r in c.a30 ==> |c.a30[r]| >= c.rbgNum && SubbandsOk(c.a30[r]))
  }

  /**
   * Every flow has HARQ entries and a transmission mode (the pass stops
   * with a fatal error otherwise) and a positive average throughput,
   * the divisor of its metric.
   */
  ghost predicate StateOk(c: Cell, s: DlState)
  {
    (forall r :: r in s.flows ==>
       0 <= r < RNTI_LIMIT && r in s.ues && r in c.layers && s.flows[r].avgThr > 0.0 && s.flows[r].lastTtiBytes >= 0) &&
    UesOk(s.ues) && ReportsOk(s.reports)
  }

  /** `n` copies of `v`. */
  function Copies(n: nat, v: int): (s: seq<int>)
    ensures |s| == n && forall k :: 0 <= k < n ==> s[k] == v
  {
    if n == 0 then [] else Copies(n - 1, v) + [v]
  }

  // ---------------------------------------------------------------------
  // The RBG pass
  // ---------------------------------------------------------------------

  /** The sub-band CQIs of RNTI `r` on RBG `i`: from its report, or CQI 1 on every layer without one. */
  function SbCqi(c: Cell, r: int, i: int): (sb: seq<int>)
    requires CellOk(c) && r in c.layers && 0 <= i < c.rbgNum
    ensures CqisOk(sb)
  {
    if r in c.a30 then c.a30[r][i] else Copies(c.layers[r], 1)
  }

  /** CQI 0 means out of range; a UE is considered when either of its first two layers is in range. */
  predicate InRange(sb: seq<int>)
    requires |sb| >= 1
  {
    sb[0] > 0 || (|sb| > 1 && sb[1] > 0)
  }

  /** The MCS of layer `k`: from the layer's CQI, or MCS 0 when the report has none for it. */
  function LayerMcs(sb: seq<int>, k: int): (mcs: int)
    requires CqisOk(sb) && 0 <= k
    ensures 0 <= mcs < 29
  {
    if k < |sb| then Amc.McsFromCqi(sb[k]) else 0
  }

  /** The bytes the first `n` layers carry on one RBG at the MCS of their sub-band CQIs. */
  function RbgBytes(c: Cell, sb: seq<int>, n: nat): (b: int)
    requires CellOk(c) && CqisOk(sb)
    ensures b >= 2 * c.rbgSize * n
  {
    if n == 0 then 0
    else
      var tbs := Amc.GetDlTbSizeFromMcs(c.tbs, LayerMcs(sb, n - 1), c.rbgSize);
      assert tbs / 8 >= 2 * c.rbgSize;
      RbgBytes(c, sb, n - 1) + tbs / 8
  }

  /** `achievableRate`: the bytes of one TTI of 1 ms, as bytes per second. */
  function AchievableRate(c: Cell, r: int, i: int): real
    requires CellOk(c) && r in c.layers && 0 <= i < c.rbgNum
  {
    (1000 * RbgBytes(c, SbCqi(c, r, i), c.layers[r])) as real
  }

  /** `rcqi`, the proportional-fair metric: the achievable rate over the average throughput. */
  function Rcqi(c: Cell, s: DlState, r: int, i: int): (q: real)
    requires CellOk(c) && StateOk(c, s) && r in s.flows && 0 <= i < c.rbgNum
    ensures q > 0.0
  {
    AchievableRate(c, r, i) / s.flows[r].avgThr
  }

  /**
   * Whether RNTI `r` competes for RBG `i`: it has a flow, the frequency
   * reuse allows it the RBG (`ffr`), it got no retransmission this TTI
   * (`served`), it has an idle HARQ process, one of its first two layers
   * is in range and it has an active logical channel.
   */
  predicate Candidate(c: Cell, s: DlState, ffr: (int, int) -> bool, served: set<int>, i: int, r: int)
    requires CellOk(c) && StateOk(c, s) && 0 <= i < c.rbgNum
  {
    r in s.flows && ffr(i, r) && r !in served && HasIdle(s.ues[r]) &&
    InRange(SbCqi(c, r, i)) && |ActiveLcs(s.reports, r)| > 0
  }

  /** The candidates for RBG `i`, each with its metric. */
  function Metrics(c: Cell, s: DlState, ffr: (int, int) -> bool, served: set<int>, i: int): (m: map<int, real>)
    requires CellOk(c) && StateOk(c, s) && 0 <= i < c.rbgNum
    ensures forall r :: r in m <==> Candidate(c, s, ffr, served, i, r)
    ensures forall r :: r in m ==> r in s.flows && 0 <= r < RNTI_LIMIT && m[r] == Rcqi(c, s, r, i)
  {
    map r | r in s.flows && Candidate(c, s, ffr, served, i, r) :: Rcqi(c, s, r, i)
  }

  /** The flow holding the greatest metric so far (`itMax`) and that metric (`rcqiMax`). */
  datatype Choice = Choice(winner: Option<int>, best: real)

  /**
   * The search over the RNTIs below `n`, in map order, among the
   * candidates `m`: a candidate replaces the one held only with a
   * strictly greater metric.
   */
  function BestOf(m: map<int, real>, n: nat): Choice
  {
    if n == 0 then Choice(None, 0.0)
    else
      var ch := BestOf(m, n - 1);
      if n - 1 in m && m[n - 1] > ch.best then Choice(Some(n - 1), m[n - 1]) else ch
  }

  /** The RNTI held is a candidate below `n` and the metric held is its metric; nothing held means metric 0. */
  lemma {:induction false} BestOfHeld(m: map<int, real>, n: nat)
    ensures BestOf(m, n).winner.None? ==> BestOf(m, n).best == 0.0
    ensures BestOf(m, n).winner.Some? ==>
      0 <= BestOf(m, n).winner.value < n && BestOf(m, n).winner.value in m && BestOf(m, n).best == m[BestOf(m, n).winner.value]
  {
    if n > 0 {
      BestOfHeld(m, n - 1);
    }
  }

  /** No candidate below `n` has a metric above the one held. */
  lemma {:induction false} BestOfMax(m: map<int, real>, n: nat)
    ensures forall r :: 0 <= r < n && r in m ==> m[r] <= BestOf(m, n).best
  {
    if n > 0 {
      BestOfMax(m, n - 1);
    }
  }

  /** Every candidate before the RNTI held has a strictly smaller metric. */
  lemma {:induction false} BestOfFirst(m: map<int, real>, n: nat)
    ensures BestOf(m, n).winner.Some? ==>
      forall r :: 0 <= r < BestOf(m, n).winner.value && r in m ==> m[r] < BestOf(m, n).best
  {
    if n > 0 {
      BestOfFirst(m, n - 1);
      BestOfMax(m, n - 1);
    }
  }

  /** With positive metrics, nothing is held exactly when no RNTI below `n` is a candidate. */
  lemma BestOfNone(m: map<int, real>, n: nat)
    requires forall r :: r in m ==> m[r] > 0.0
    ensures BestOf(m, n).winner.None? <==> forall r :: 0 <= r < n ==> r !in m
  {
    BestOfHeld(m, n);
    BestOfMax(m, n);
  }

  /** The UE that RBG `i` goes to, if any. */
  function Winner(c: Cell, s: DlState, ffr: (int, int) -> bool, served: set<int>, i: int): Option<int>
    requires CellOk(c) && StateOk(c, s) && 0 <= i < c.rbgNum
  {
    BestOf(Metrics(c, s, ffr, served, i), RNTI_LIMIT).winner
  }

  /**
   * The RBG goes to a candidate with the strictly greatest metric, the
   * lowest such RNTI on a tie, and to nobody only when no UE competes.
   */
  lemma WinnerSpec(c: Cell, s: DlState, ffr: (int, int) -> bool, served: set<int>, i: int)
    requires CellOk(c) && StateOk(c, s) && 0 <= i < c.rbgNum
    ensures Winner(c, s, ffr, served, i).None? <==> forall r :: !Candidate(c, s, ffr, served, i, r)
    ensures Winner(c, s, ffr, served, i).Some? ==>
      var w := Winner(c, s, ffr, served, i).value;
      Candidate(c, s, ffr, served, i, w) &&
      (forall r :: Candidate(c, s, ffr, served, i, r) ==> Rcqi(c, s, r, i) <= Rcqi(c, s, w, i)) &&
      (forall r :: r < w && Candidate(c, s, ffr, served, i, r) ==> Rcqi(c, s, r, i) < Rcqi(c, s, w, i))
  {
    var m := Metrics(c, s, ffr, served, i);
    BestOfHeld(m, RNTI_LIMIT);
    BestOfMax(m, RNTI_LIMIT);
    BestOfFirst(m, RNTI_LIMIT);
    BestOfNone(m, RNTI_LIMIT);
  }

  /** The RBG map and `allocationMap` (RNTI to its RBGs, in the order given). */
  datatype Allocation = Allocation(rbgMap: seq<bool>, alloc: map<int, seq<nat>>)

  function RbgsOf(alloc: map<int, seq<nat>>, r: int): seq<nat>
  {
    if r in alloc then alloc[r] else []
  }

  /**
   * The pass over the RBGs below `n`, given each RBG's winner: a free RBG
   * with a winner is marked used and appended to the winner's list.
   */
  function Assign(winners: seq<Option<int>>, m0: seq<bool>, n: nat): (a: Allocation)
    requires n <= |winners| && n <= |m0|
    ensures |a.rbgMap| == |m0| && forall j :: n <= j < |m0| ==> a.rbgMap[j] == m0[j]
  {
    if n == 0 then Allocation(m0, map[])
    else
      var a := Assign(winners, m0, n - 1);
      if !a.rbgMap[n - 1] && winners[n - 1].Some? then
        var w := winners[n - 1].value;
        Allocation(a.rbgMap[n - 1 := true], a.alloc[w := RbgsOf(a.alloc, w) + [n - 1]])
      else a
  }

  /** Every listed RBG is a free RBG below `n` listed under its own winner. */
  lemma {:induction false} AssignSound(winners: seq<Option<int>>, m0: seq<bool>, n: nat)
    requires n <= |winners| && n <= |m0|
    ensures forall w, j :: w in Assign(winners, m0, n).alloc && j in Assign(winners, m0, n).alloc[w] ==>
      0 <= j < n && !m0[j] && winners[j] == Some(w)
  {
    if n > 0 {
      AssignSound(winners, m0, n - 1);
      var a := Assign(winners, m0, n - 1);
      var r := Assign(winners, m0, n);
      assert a.rbgMap[n - 1] == m0[n - 1];
      if !a.rbgMap[n - 1] && winners[n - 1].Some? {
        var v := winners[n - 1].value;
        assert r.alloc == a.alloc[v := RbgsOf(a.alloc, v) + [n - 1]];
        forall w, j | w in r.alloc && j in r.alloc[w]
          ensures 0 <= j < n && !m0[j] && winners[j] == Some(w)
        {
          if w == v && j != n - 1 {
            assert j in RbgsOf(a.alloc, v);
          } else if w != v {
            assert j in a.alloc[w];
          }
        }
      } else {
        assert r == a;
        assert forall w, j :: w in Assign(winners, m0, n).alloc && j in Assign(winners, m0, n).alloc[w] ==>
          0 <= j < n && !m0[j] && winners[j] == Some(w);
      }
    } else {
      assert Assign(winners, m0, n).alloc == map[];
    }
  }

  /** An RBG below `n` is used exactly when it was already used or has a winner. */
  lemma {:induction false} AssignMarks(winners: seq<Option<int>>, m0: seq<bool>, n: nat)
    requires n <= |winners| && n <= |m0|
    ensures forall j :: 0 <= j < n ==> Assign(winners, m0, n).rbgMap[j] == (m0[j] || winners[j].Some?)
  {
    if n > 0 {
      AssignMarks(winners, m0, n - 1);
      var a := Assign(winners, m0, n - 1);
      assert a.rbgMap[n - 1] == m0[n - 1];
      if !a.rbgMap[n - 1] && winners[n - 1].Some? {
        assert Assign(winners, m0, n).rbgMap == a.rbgMap[n - 1 := true];
      } else {
        assert Assign(winners, m0, n) == a;
      }
    }
  }

  /** A free RBG below `n` with a winner is in that winner's list. */
  lemma {:induction false} AssignComplete(winners: seq<Option<int>>, m0: seq<bool>, n: nat)
    requires n <= |winners| && n <= |m0|
    ensures forall j :: 0 <= j < n && !m0[j] && winners[j].Some? ==>
      winners[j].value in Assign(winners, m0, n).alloc && j in Assign(winners, m0, n).alloc[winners[j].value]
  {
    if n > 0 {
      AssignComplete(winners, m0, n - 1);
      var a := Assign(winners, m0, n - 1);
      var r := Assign(winners, m0, n);
      assert a.rbgMap[n - 1] == m0[n - 1];
      if !a.rbgMap[n - 1] && winners[n - 1].Some? {
        var v := winners[n - 1].value;
        assert r.alloc == a.alloc[v := RbgsOf(a.alloc, v) + [n - 1]];
        forall j | 0 <= j < n && !m0[j] && winners[j].Some?
          ensures winners[j].value in r.alloc && j in r.alloc[winners[j].value]
        {
          if j < n - 1 && winners[j].value == v {
            assert j in a.alloc[v] && RbgsOf(a.alloc, v) == a.alloc[v];
          }
        }
      } else {
        assert r == a;
        assert forall j :: 0 <= j < n && !m0[j] && winners[j].Some? ==>
          winners[j].value in Assign(winners, m0, n).alloc && j in Assign(winners, m0, n).alloc[winners[j].value];
      }
    }
  }

  /** Every list is a non-empty increasing list of RBGs below `n`. */
  lemma {:induction false} AssignShape(winners: seq<Option<int>>, m0: seq<bool>, n: nat)
    requires n <= |winners| && n <= |m0|
    ensures forall w :: w in Assign(winners, m0, n).alloc ==>
      Assign(winners, m0, n).alloc[w] != [] && Increasing(Assign(winners, m0, n).alloc[w]) &&
      AllBelow(Assign(winners, m0, n).alloc[w], n)
  {
    if n > 0 {
      AssignShape(winners, m0, n - 1);
      var a := Assign(winners, m0, n - 1);
      var r := Assign(winners, m0, n);
      if !a.rbgMap[n - 1] && winners[n - 1].Some? {
        var v := winners[n - 1].value;
        var l := RbgsOf(a.alloc, v) + [n - 1];
        assert Increasing(l) && AllBelow(l, n);
        assert r.alloc == a.alloc[v := l];
        forall w | w in r.alloc
          ensures r.alloc[w] != [] && Increasing(r.alloc[w]) && AllBelow(r.alloc[w], n)
        {
          if w != v {
            assert r.alloc[w] == a.alloc[w] && AllBelow(a.alloc[w], n - 1);
          }
        }
      } else {
        assert r == a;
        forall w | w in r.alloc
          ensures AllBelow(r.alloc[w], n)
        {
          assert AllBelow(a.alloc[w], n - 1);
        }
      }
    }
  }

  /**
   * After the RBGs below `n`: an RBG is used exactly when it was already
   * used or has a winner; an RBG already used is in no list; a free one
   * is in its winner's list; and every list is a non-empty increasing
   * list of RBGs below `n`.
   */
  lemma {:induction false} AssignSpec(winners: seq<Option<int>>, m0: seq<bool>, n: nat)
    requires n <= |winners| && n <= |m0|
    ensures forall j :: 0 <= j < n ==> Assign(winners, m0, n).rbgMap[j] == (m0[j] || winners[j].Some?)
    ensures forall w, j :: w in Assign(winners, m0, n).alloc && j in Assign(winners, m0, n).alloc[w] ==>
      0 <= j < n && !m0[j] && winners[j] == Some(w)
    ensures forall j :: 0 <= j < n && !m0[j] && winners[j].Some? ==>
      winners[j].value in Assign(winners, m0, n).alloc && j in Assign(winners, m0, n).alloc[winners[j].value]
    ensures forall w :: w in Assign(winners, m0, n).alloc ==>
      Assign(winners, m0, n).alloc[w] != [] && Increasing(Assign(winners, m0, n).alloc[w]) &&
      AllBelow(Assign(winners, m0, n).alloc[w], n)
  {
    AssignMarks(winners, m0, n);
    AssignSound(winners, m0, n);
    AssignComplete(winners, m0, n);
    AssignShape(winners, m0, n);
  }

  /** The winner of every RBG of the cell. */
  function Winners(c: Cell, s: DlState, ffr: (int, int) -> bool, served: set<int>): (w: seq<Option<int>>)
    requires CellOk(c) && StateOk(c, s)
    ensures |w| == c.rbgNum && forall i :: 0 <= i < c.rbgNum ==> w[i] == Winner(c, s, ffr, served, i)
  {
    seq(c.rbgNum, i requires 0 <= i < c.rbgNum => Winner(c, s, ffr, served, i))
  }

  /** The RBG pass of the TTI, from the RBG map `m0` the retransmissions left. */
  function PfAllocation(c: Cell, s: DlState, ffr: (int, int) -> bool, served: set<int>, m0: seq<bool>): Allocation
    requires CellOk(c) && StateOk(c, s) && |m0| >= c.rbgNum
  {
    Assign(Winners(c, s, ffr, served), m0, c.rbgNum)
  }

  /**
   * What the pass leaves: an RBG already used stays used and is in no
   * list; a free RBG is used afterwards exactly when some UE competes for
   * it, and is then in the list of its winner and of no other UE; every
   * listed RBG went to a competing UE; and the lists are increasing.
   */
  lemma PfAllocationSpec(c: Cell, s: DlState, ffr: (int, int) -> bool, served: set<int>, m0: seq<bool>)
    requires CellOk(c) && StateOk(c, s) && |m0| >= c.rbgNum
    ensures var a := PfAllocation(c, s, ffr, served, m0);
      (forall j :: 0 <= j < c.rbgNum ==>
         (a.rbgMap[j] <==> m0[j] || exists r :: Candidate(c, s, ffr, served, j, r))) &&
      (forall j :: c.rbgNum <= j < |m0| ==> a.rbgMap[j] == m0[j]) &&
      (forall w, j :: w in a.alloc && j in a.alloc[w] ==>
         0 <= j < c.rbgNum && !m0[j] && Winner(c, s, ffr, served, j) == Some(w) && Candidate(c, s, ffr, served, j, w)) &&
      (forall j :: 0 <= j < c.rbgNum && !m0[j] && Winner(c, s, ffr, served, j).Some? ==>
         var w := Winner(c, s, ffr, served, j).value; w in a.alloc && j in a.alloc[w]) &&
      (forall w :: w in a.alloc ==> a.alloc[w] != [] && Increasing(a.alloc[w]) && AllBelow(a.alloc[w], c.rbgNum))
  {
    var ws := Winners(c, s, ffr, served);
    var a := PfAllocation(c, s, ffr, served, m0);
    assert a == Assign(ws, m0, c.rbgNum);
    AssignSpec(ws, m0, c.rbgNum);
    forall j | 0 <= j < c.rbgNum
      ensures Winner(c, s, ffr, served, j).None? <==> forall r :: !Candidate(c, s, ffr, served, j, r)
      ensures Winner(c, s, ffr, served, j).Some? ==> Candidate(c, s, ffr, served, j, Winner(c, s, ffr, served, j).value)
    {
      WinnerSpec(c, s, ffr, served, j);
    }
  }

  // ---------------------------------------------------------------------
  // The DCI of each UE
  // ---------------------------------------------------------------------

  /** A report entry with a CQI of layer `j` for RBG `rbg`. */
  predicate Covered(hl: seq<seq<int>>, rbg: int, j: int)
  {
    0 <= rbg < |hl| && 0 <= j < |hl[rbg]|
  }

  /**
   * `worstCqi` after an RBG whose report entry is `sb`: each of the first
   * `n` layers keeps the smaller CQI, or falls to 1 when the entry has no
   * CQI for it.
   */
  function LayerMin(w: seq<int>, sb: seq<int>, n: int): (r: seq<int>)
    requires |w| == NUM_LAYERS
    ensures |r| == NUM_LAYERS
  {
    seq(NUM_LAYERS, j requires 0 <= j < NUM_LAYERS =>
      if j < n then (if j < |sb| then (if sb[j] < w[j] then sb[j] else w[j]) else 1) else w[j])
  }

  /** `worstCqi` with no information on the channel: the first `n` layers fall back to CQI 1. */
  function Fallback(w: seq<int>, n: int): (r: seq<int>)
    requires |w| == NUM_LAYERS
    ensures |r| == NUM_LAYERS
  {
    seq(NUM_LAYERS, j requires 0 <= j < NUM_LAYERS => if j < n then 1 else w[j])
  }

  /** `worstCqi` over the first `k` RBGs of the list, from CQI 15 on both layers. */
  function WorstUpTo(hl: seq<seq<int>>, rbgs: seq<nat>, n: int, k: nat): (w: seq<int>)
    requires k <= |rbgs|
    ensures |w| == NUM_LAYERS
  {
    if k == 0 then [15, 15]
    else
      var w := WorstUpTo(hl, rbgs, n, k - 1);
      if rbgs[k - 1] < |hl| then LayerMin(w, hl[rbgs[k - 1]], n) else Fallback(w, n)
  }

  /** `worstCqi` of RNTI `r` over its RBGs: from its report, or CQI 1 on its layers without one. */
  function WorstCqi(c: Cell, r: int, rbgs: seq<nat>): (w: seq<int>)
    requires r in c.layers
    ensures |w| == NUM_LAYERS
  {
    if r in c.a30 then WorstUpTo(c.a30[r], rbgs, c.layers[r], |rbgs|) else Fallback([15, 15], c.layers[r])
  }

  /**
   * Layer `j` of `worstCqi` after `k` RBGs: a CQI in 0..15, 15 on an
   * unused layer; at most 1 once an RBG without a CQI for the layer has
   * been met; and when every RBG has one, their minimum (15 for none).
   */
  lemma {:induction false} WorstUpToSpec(hl: seq<seq<int>>, rbgs: seq<nat>, n: int, k: nat, j: int)
    requires SubbandsOk(hl) && k <= |rbgs| && 0 <= j < NUM_LAYERS
    ensures 0 <= WorstUpTo(hl, rbgs, n, k)[j] <= 15
    ensures j >= n ==> WorstUpTo(hl, rbgs, n, k)[j] == 15
    ensures j < n && (exists q :: 0 <= q < k && !Covered(hl, rbgs[q], j)) ==> WorstUpTo(hl, rbgs, n, k)[j] <= 1
    ensures j < n && (forall q :: 0 <= q < k ==> Covered(hl, rbgs[q], j)) ==>
      (forall q :: 0 <= q < k ==> WorstUpTo(hl, rbgs, n, k)[j] <= hl[rbgs[q]][j]) &&
      (WorstUpTo(hl, rbgs, n, k)[j] == 15 || exists q :: 0 <= q < k && WorstUpTo(hl, rbgs, n, k)[j] == hl[rbgs[q]][j])
  {
    if k > 0 {
      WorstUpToSpec(hl, rbgs, n, k - 1, j);
      if rbgs[k - 1] < |hl| {
        assert CqisOk(hl[rbgs[k - 1]]);
      }
    }
  }

  /**
   * The CQI each layer of the DCI is coded for: without a report, CQI 1;
   * with one, at most 1 when an allocated RBG has no CQI for the layer,
   * and otherwise the minimum over the allocated RBGs (15 for none).
   */
  lemma WorstCqiSpec(c: Cell, r: int, rbgs: seq<nat>, j: int)
    requires CellOk(c) && r in c.layers && 0 <= j < c.layers[r]
    ensures 0 <= WorstCqi(c, r, rbgs)[j] <= 15
    ensures r !in c.a30 ==> WorstCqi(c, r, rbgs)[j] == 1
    ensures r in c.a30 && (exists q :: 0 <= q < |rbgs| && !Covered(c.a30[r], rbgs[q], j)) ==> WorstCqi(c, r, rbgs)[j] <= 1
    ensures r in c.a30 && (forall q :: 0 <= q < |rbgs| ==> Covered(c.a30[r], rbgs[q], j)) ==>
      (forall q :: 0 <= q < |rbgs| ==> WorstCqi(c, r, rbgs)[j] <= c.a30[r][rbgs[q]][j]) &&
      (WorstCqi(c, r, rbgs)[j] == 15 || exists q :: 0 <= q < |rbgs| && WorstCqi(c, r, rbgs)[j] == c.a30[r][rbgs[q]][j])
  {
    if r in c.a30 {
      WorstUpToSpec(c.a30[r], rbgs, c.layers[r], |rbgs|, j);
    }
  }

  /** The MCS of each of the `n` layers, from its worst CQI. */
  function Mcss(worst: seq<int>, n: int): (mcs: seq<int>)
    requires 0 <= n <= |worst| && forall j :: 0 <= j < n ==> 0 <= worst[j] <= 15
    ensures |mcs| == n && forall j :: 0 <= j < n ==> 0 <= mcs[j] < 29 && mcs[j] == Amc.McsFromCqi(worst[j])
  {
    seq(n, j requires 0 <= j < n => Amc.McsFromCqi(worst[j]))
  }

  /** The transport block of each layer in bytes, for `nprb` resource blocks. */
  function LayerTbs(t: seq<seq<int>>, mcs: seq<int>, nprb: int): (tb: seq<int>)
    requires WellShaped(t) && 1 <= nprb <= NUM_NPRB && forall j :: 0 <= j < |mcs| ==> 0 <= mcs[j] < 29
    ensures |tb| == |mcs|
    ensures forall j :: 0 <= j < |mcs| ==> tb[j] == Amc.GetDlTbSizeFromMcs(t, mcs[j], nprb) / 8
    ensures forall j :: 0 <= j < |mcs| ==> 2 * nprb <= tb[j] <= MAX_TBS / 8
  {
    seq(|mcs|, j requires 0 <= j < |mcs| => Amc.GetDlTbSizeFromMcs(t, mcs[j], nprb) / 8)
  }

  function Sum(s: seq<int>): int
  {
    if s == [] then 0 else Sum(s[..|s| - 1]) + s[|s| - 1]
  }

  /** An increasing list of RBGs below `n` has at most `n` entries. */
  lemma {:induction false} IncreasingFits(s: seq<nat>, n: nat)
    requires Increasing(s) && AllBelow(s, n)
    ensures |s| <= n
  {
    if s != [] {
      var p := s[..|s| - 1];
      IncreasingFits(p, s[|s| - 1]);
    }
  }

  lemma MulLe(a: int, b: int, k: int)
    requires 0 <= a <= b && k >= 0
    ensures a * k <= b * k
  {
  }

  // ---------------------------------------------------------------------
  // The RLC PDUs of each UE
  // ---------------------------------------------------------------------

  /** The PDUs for channel `l`: on each layer, the channel's share of the layer's transport block. */
  function LcPdus(l: int, tb: seq<int>, lcActives: int): (p: seq<RlcPdu>)
    requires lcActives >= 1 && forall j :: 0 <= j < |tb| ==> 0 <= tb[j] < 0x1_0000
    ensures |p| == |tb| && forall j :: 0 <= j < |tb| ==> p[j] == RlcPdu(l, tb[j] / lcActives)
    ensures SizesOk(p)
  {
    SharesFit(tb, lcActives);
    seq(|tb|, j requires 0 <= j < |tb| => RlcPdu(l, tb[j] / lcActives))
  }

  predicate SizesOk(p: seq<RlcPdu>)
  {
    forall j :: 0 <= j < |p| ==> 0 <= p[j].size < 0x1_0000
  }

  lemma DivLe(a: int, b: int)
    requires a >= 0 && b >= 1
    ensures 0 <= a / b <= a
  {
  }

  /** A channel's share of a block is no larger than the block. */
  lemma SharesFit(tb: seq<int>, lcActives: int)
    requires lcActives >= 1 && forall j :: 0 <= j < |tb| ==> 0 <= tb[j] < 0x1_0000
    ensures forall j :: 0 <= j < |tb| ==> 0 <= tb[j] / lcActives <= tb[j]
  {
    forall j | 0 <= j < |tb| {
      DivLe(tb[j], lcActives);
    }
  }

  /** The report once the PDUs of one channel have drained it, layer after layer. */
  function DrainPdus(b: RlcReport, l: int, p: seq<RlcPdu>): (r: RlcReport)
    requires ReportOk(b) && SizesOk(p)
    ensures ReportOk(r)
  {
    if p == [] then b else DrainAsWritten(DrainPdus(b, l, p[..|p| - 1]), l, p[|p| - 1].size)
  }

  /** The HARQ record once the PDUs of one channel are kept on process `hp`, layer `j` for PDU `j`. */
  function KeepPdus(u: DlUe, hp: int, p: seq<RlcPdu>): (r: DlUe)
    requires UeOk(u) && 0 <= hp < HARQ_PROC_NUM && |p| <= NUM_LAYERS
    ensures UeOk(r)
  {
    if p == [] then u else AddPdu(KeepPdus(u, hp, p[..|p| - 1]), |p| - 1, hp, p[|p| - 1])
  }

  /** Keeping PDUs appends PDU `j` to the list of layer `j` on process `hp` and changes nothing else. */
  lemma {:induction false} KeepPdusEffect(u: DlUe, hp: int, p: seq<RlcPdu>)
    requires UeOk(u) && 0 <= hp < HARQ_PROC_NUM && |p| <= NUM_LAYERS
    ensures KeepPdus(u, hp, p) == u.(pdus := KeepPdus(u, hp, p).pdus)
    ensures forall j, i :: 0 <= j < NUM_LAYERS && 0 <= i < HARQ_PROC_NUM ==>
      KeepPdus(u, hp, p).pdus[j][i] == if i == hp && j < |p| then u.pdus[j][i] + [p[j]] else u.pdus[j][i]
  {
    if p != [] {
      KeepPdusEffect(u, hp, p[..|p| - 1]);
    }
  }

  /**
   * What the walk over the channels of RNTI `w` works with: the transport
   * block of each layer in bytes and the number of active channels that
   * share it.
   */
  datatype RlcJob = RlcJob(w: int, tb: seq<int>, lcActives: int)

  predicate JobOk(x: RlcJob)
  {
    |x.tb| <= NUM_LAYERS && (forall j :: 0 <= j < |x.tb| ==> 0 <= x.tb[j] < 0x1_0000) && x.lcActives >= 1
  }

  /**
   * The reports once the walk has passed the channels of `w` below `n`:
   * every active one drained by its PDUs. A channel is drained only at its
   * own step, so whether it is active is decided on the reports before
   * the walk.
   */
  function DrainedBelow(reports0: map<FlowId, RlcReport>, x: RlcJob, n: int): (r: map<FlowId, RlcReport>)
    requires ReportsOk(reports0) && JobOk(x)
    ensures ReportsOk(r) && r.Keys == reports0.Keys
  {
    map f | f in reports0 ::
      if f.rnti == x.w && f.lcId < n && Active(reports0[f])
      then DrainPdus(reports0[f], f.lcId, LcPdus(f.lcId, x.tb, x.lcActives))
      else reports0[f]
  }

  /** The PDU lists of the walk below channel `n`: one per active channel of `w`, in channel order. */
  function PduLists(reports0: map<FlowId, RlcReport>, x: RlcJob, n: nat): (p: seq<seq<RlcPdu>>)
    requires JobOk(x)
  {
    if n == 0 then []
    else if FlowId(x.w, n - 1) in reports0 && Active(reports0[FlowId(x.w, n - 1)])
    then PduLists(reports0, x, n - 1) + [LcPdus(n - 1, x.tb, x.lcActives)]
    else PduLists(reports0, x, n - 1)
  }

  /** One PDU list per active channel of `w` below `n`. */
  lemma {:induction false} PduListsCount(reports0: map<FlowId, RlcReport>, x: RlcJob, n: nat)
    requires ReportsOk(reports0) && JobOk(x)
    ensures |PduLists(reports0, x, n)| == |ActiveBelow(reports0, x.w, n)|
  {
    if n > 0 {
      PduListsCount(reports0, x, n - 1);
      ActiveBelowStep(reports0, x.w, n - 1);
      var f := FlowId(x.w, n - 1);
      var below := ActiveBelow(reports0, x.w, n - 1);
      if f in reports0 && Active(reports0[f]) {
        assert f !in below;
        assert |below + {f}| == |below| + 1;
      }
    } else {
      assert ActiveBelow(reports0, x.w, 0) == {};
    }
  }

  /**
   * Each PDU list has one PDU per layer, carrying the channel's equal
   * share of the layer's block.
   */
  lemma {:induction false} PduListsShape(reports0: map<FlowId, RlcReport>, x: RlcJob, n: nat)
    requires JobOk(x)
    ensures forall k :: 0 <= k < |PduLists(reports0, x, n)| ==>
      |PduLists(reports0, x, n)[k]| == |x.tb| &&
      forall j :: 0 <= j < |x.tb| ==> PduLists(reports0, x, n)[k][j].size == x.tb[j] / x.lcActives
  {
    if n > 0 {
      PduListsShape(reports0, x, n - 1);
    }
  }

  /** Each channel's PDUs, appended layer by layer to the UE's HARQ buffer of process `hp`. */
  function KeepAll(u: DlUe, hp: int, lists: seq<seq<RlcPdu>>): (r: DlUe)
    requires UeOk(u) && 0 <= hp < HARQ_PROC_NUM && forall k :: 0 <= k < |lists| ==> |lists[k]| <= NUM_LAYERS
    ensures UeOk(r)
  {
    if lists == [] then u else KeepPdus(KeepAll(u, hp, lists[..|lists| - 1]), hp, lists[|lists| - 1])
  }

  /** Layer `j` of every list that has one. */
  function Column(lists: seq<seq<RlcPdu>>, j: int): seq<RlcPdu>
  {
    if lists == [] then []
    else Column(lists[..|lists| - 1], j) + (if 0 <= j < |lists[|lists| - 1]| then [lists[|lists| - 1][j]] else [])
  }

  /**
   * The HARQ buffer of process `hp` on layer `j` gains layer `j` of every
   * PDU list, in order; every other buffer and every other field is kept.
   */
  lemma {:induction false} KeepAllEffect(u: DlUe, hp: int, lists: seq<seq<RlcPdu>>)
    requires UeOk(u) && 0 <= hp < HARQ_PROC_NUM && forall k :: 0 <= k < |lists| ==> |lists[k]| <= NUM_LAYERS
    ensures KeepAll(u, hp, lists) == u.(pdus := KeepAll(u, hp, lists).pdus)
    ensures forall j, i :: 0 <= j < NUM_LAYERS && 0 <= i < HARQ_PROC_NUM ==>
      KeepAll(u, hp, lists).pdus[j][i] == if i == hp then u.pdus[j][i] + Column(lists, j) else u.pdus[j][i]
  {
    if lists != [] {
      var init := lists[..|lists| - 1];
      KeepAllEffect(u, hp, init);
      KeepPdusEffect(KeepAll(u, hp, init), hp, lists[|lists| - 1]);
    }
  }

  /** Every active channel of a UE has a channel id below `MAX_LCID`, so the walk meets all of them. */
  lemma ActiveBelowAll(reports: map<FlowId, RlcReport>, w: int)
    requires ReportsOk(reports)
    ensures ActiveBelow(reports, w, MAX_LCID) == ActiveLcs(reports, w)
  {
  }

  function LayerBytes(p: seq<RlcPdu>): int
  {
    if p == [] then 0 else LayerBytes(p[..|p| - 1]) + p[|p| - 1].size
  }

  /** Layer `j` of PDU lists that each carry `q` bytes on it holds `q` bytes per list. */
  lemma {:induction false} ColumnBytes(lists: seq<seq<RlcPdu>>, j: int, q: int)
    requires 0 <= j && forall k :: 0 <= k < |lists| ==> j < |lists[k]| && lists[k][j].size == q
    ensures |Column(lists, j)| == |lists|
    ensures LayerBytes(Column(lists, j)) == |lists| * q
  {
    if lists != [] {
      var init := lists[..|lists| - 1];
      ColumnBytes(init, j, q);
      var col := Column(lists, j);
      assert col[..|col| - 1] == Column(init, j);
      assert LayerBytes(col) == |init| * q + q;
      assert |init| * q + q == |lists| * q by {
        assert |lists| == |init| + 1;
        MulSucc(|init|, q);
      }
    }
  }

  lemma MulSucc(n: int, q: int)
    ensures n * q + q == (n + 1) * q
  {
  }

  /** `k` equal shares of a block split `n >= k` ways fit in the block. */
  lemma SharesBound(k: int, tb: int, n: int)
    requires 0 <= k <= n && 0 <= tb && 1 <= n
    ensures k * (tb / n) <= tb
  {
    MulLe(k, n, tb / n);
  }

  // ---------------------------------------------------------------------
  // The new transmission of one UE
  // ---------------------------------------------------------------------

  /** A new transmission: the DCI and the RLC PDU lists, one per active channel. */
  datatype NewData = NewData(rnti: int, dci: DlDci, rlcPdus: seq<seq<RlcPdu>>)

  /** An allocation the DCI stage can serve: a nonempty increasing list of RBGs of a known flow. */
  ghost predicate AllocOk(c: Cell, s: DlState, w: int, rbgs: seq<nat>)
  {
    w in s.flows && w in s.ueUl && rbgs != [] && Increasing(rbgs) && c.rbgNum >= 0 && AllBelow(rbgs, c.rbgNum) &&
    (c.harqOn ==> w in s.ues && HasIdle(s.ues[w]))
  }

  /** `UpdateHarqProcessId`: with HARQ on, the next idle process, which is then taken; otherwise 0. */
  function TakeProcess(harqOn: bool, u: DlUe): (r: (int, DlUe))
    requires UeOk(u) && (harqOn ==> HasIdle(u))
    ensures 0 <= r.0 < HARQ_PROC_NUM && UeOk(r.1)
    ensures harqOn ==> u.status[r.0] == 0
    ensures !harqOn ==> r == (0, u)
  {
    if !harqOn then (0, u)
    else
      var id := NextProcessId(u);
      (id, u.(currentId := id, status := u.status[id := 1]))
  }

  lemma WorstCqiBounds(c: Cell, w: int, rbgs: seq<nat>)
    requires CellOk(c) && w in c.layers
    ensures forall j :: 0 <= j < c.layers[w] ==> 0 <= WorstCqi(c, w, rbgs)[j] <= 15
  {
    forall j | 0 <= j < c.layers[w] {
      WorstCqiSpec(c, w, rbgs, j);
    }
  }

  /** The MCS of each layer of the DCI. */
  function DciMcs(c: Cell, w: int, rbgs: seq<nat>): (mcs: seq<int>)
    requires CellOk(c) && w in c.layers
    ensures |mcs| == c.layers[w]
    ensures forall j :: 0 <= j < |mcs| ==>
      0 <= WorstCqi(c, w, rbgs)[j] <= 15 && 0 <= mcs[j] < 29 && mcs[j] == Amc.McsFromCqi(WorstCqi(c, w, rbgs)[j])
  {
    WorstCqiBounds(c, w, rbgs);
    Mcss(WorstCqi(c, w, rbgs), c.layers[w])
  }

  /** The transport block of each layer in bytes, over the UE's resource blocks. */
  function DciTbs(c: Cell, w: int, rbgs: seq<nat>): (tb: seq<int>)
    requires CellOk(c) && w in c.layers && rbgs != [] && Increasing(rbgs) && AllBelow(rbgs, c.rbgNum)
    ensures |tb| == c.layers[w] && 1 <= |rbgs| * c.rbgSize <= NUM_NPRB
    ensures forall j :: 0 <= j < |tb| ==>
      tb[j] == Amc.GetDlTbSizeFromMcs(c.tbs, DciMcs(c, w, rbgs)[j], |rbgs| * c.rbgSize) / 8 &&
      2 * (|rbgs| * c.rbgSize) <= tb[j] <= MAX_TBS / 8
    ensures Sum(tb) >= 0
  {
    IncreasingFits(rbgs, c.rbgNum);
    MulLe(|rbgs|, c.rbgNum, c.rbgSize);
    MulLe(1, |rbgs|, c.rbgSize);
    var tb := LayerTbs(c.tbs, DciMcs(c, w, rbgs), |rbgs| * c.rbgSize);
    SumNonNegative(tb);
    tb
  }

  /** The walk over the RNTI's channels: active channels share the blocks equally (65535 for none). */
  function JobOf(c: Cell, s: DlState, w: int, rbgs: seq<nat>): (x: RlcJob)
    requires CellOk(c) && w in c.layers && rbgs != [] && Increasing(rbgs) && AllBelow(rbgs, c.rbgNum)
    ensures JobOk(x) && x.w == w && x.tb == DciTbs(c, w, rbgs)
    ensures |ActiveLcs(s.reports, w)| > 0 ==> x.lcActives == |ActiveLcs(s.reports, w)|
  {
    var act := |ActiveLcs(s.reports, w)|;
    RlcJob(w, DciTbs(c, w, rbgs), if act == 0 then 65535 else act)
  }

  /** The PDU lists of the RNTI: one per active channel, one PDU per layer. */
  function ListsOf(c: Cell, s: DlState, w: int, rbgs: seq<nat>): (lists: seq<seq<RlcPdu>>)
    requires CellOk(c) && StateOk(c, s) && w in c.layers && rbgs != [] && Increasing(rbgs) && AllBelow(rbgs, c.rbgNum)
    ensures forall k :: 0 <= k < |lists| ==> |lists[k]| == c.layers[w]
  {
    PduListsShape(s.reports, JobOf(c, s, w, rbgs), MAX_LCID);
    PduLists(s.reports, JobOf(c, s, w, rbgs), MAX_LCID)
  }

  /** The DCI of the new transmission on HARQ process `hp`, with the TPC command `tpc`. */
  function DciOf(c: Cell, w: int, rbgs: seq<nat>, hp: int, tpc: int): (dci: DlDci)
    requires CellOk(c) && w in c.layers && rbgs != [] && Increasing(rbgs) && AllBelow(rbgs, c.rbgNum)
  {
    var n := c.layers[w];
    DlDci(w, hp, Mask(rbgs), Copies(n, 1), Copies(n, 0), DciMcs(c, w, rbgs), DciTbs(c, w, rbgs), tpc)
  }

  /** The power record of the UE once its DCI carries the TPC command. */
  function PowerAfter(c: Cell, s: DlState, w: int): Power.UeInfo
    requires w in s.ueUl
  {
    Power.DciPowerUpdate(s.ueUl[w], c.effState, c.tti)
  }

  /** The record of the UE once the new transmission is kept on process `hp` for HARQ. */
  function Retain(u: DlUe, hp: int, dci: DlDci, lists: seq<seq<RlcPdu>>): (r: DlUe)
    requires UeOk(u) && 0 <= hp < HARQ_PROC_NUM && forall k :: 0 <= k < |lists| ==> |lists[k]| <= NUM_LAYERS
    ensures UeOk(r)
  {
    var k := KeepAll(u, hp, lists);
    k.(dci := k.dci[hp := dci], timers := k.timers[hp := 0])
  }

  /** Every block of the transmission fits the largest block the table holds. */
  predicate BlocksOk(d: NewData)
  {
    forall j :: 0 <= j < |d.dci.tbsSize| ==> 0 <= d.dci.tbsSize[j] <= MAX_TBS / 8
  }

  /**
   * The new transmission for RNTI `w` and its RBGs: the DCI, with the
   * HARQ process, the per-layer MCS and block, the bitmap and the TPC
   * command, and the RLC PDUs of the active channels.
   */
  function NewDataFor(c: Cell, s: DlState, w: int, rbgs: seq<nat>): (d: NewData)
    requires CellOk(c) && StateOk(c, s) && AllocOk(c, s, w, rbgs)
    ensures d.rnti == w && BlocksOk(d)
  {
    var hp := TakeProcess(c.harqOn, s.ues[w]).0;
    NewData(w, DciOf(c, w, rbgs, hp, PowerAfter(c, s, w).tpc), ListsOf(c, s, w, rbgs))
  }

  /** The UE's HARQ record after the DCI stage: with HARQ on, the process taken and the transmission kept on it. */
  function UeAfter(c: Cell, s: DlState, w: int, rbgs: seq<nat>): (u: DlUe)
    requires CellOk(c) && StateOk(c, s) && AllocOk(c, s, w, rbgs)
    ensures UeOk(u)
  {
    var hp := TakeProcess(c.harqOn, s.ues[w]);
    if c.harqOn then Retain(hp.1, hp.0, NewDataFor(c, s, w, rbgs).dci, NewDataFor(c, s, w, rbgs).rlcPdus) else hp.1
  }

  lemma {:induction false} SumNonNegative(s: seq<int>)
    requires forall k :: 0 <= k < |s| ==> s[k] >= 0
    ensures Sum(s) >= 0
  {
    if s != [] {
      SumNonNegative(s[..|s| - 1]);
    }
  }

  /**
   * The DCI of the new transmission: addressed to `w`; with HARQ on it
   * uses the first idle process after the current one, otherwise process
   * 0; a new-data indicator of 1 and redundancy version 0 on every layer;
   * and the UE's pending TPC command.
   */
  lemma NewDataForDci(c: Cell, s: DlState, w: int, rbgs: seq<nat>)
    requires CellOk(c) && StateOk(c, s) && AllocOk(c, s, w, rbgs)
    ensures var d := NewDataFor(c, s, w, rbgs);
      d.dci.rnti == w &&
      (c.harqOn ==> d.dci.harqProcess == NextProcessId(s.ues[w]) && s.ues[w].status[d.dci.harqProcess] == 0) &&
      (!c.harqOn ==> d.dci.harqProcess == 0) &&
      d.dci.ndi == Copies(c.layers[w], 1) && d.dci.rv == Copies(c.layers[w], 0) &&
      d.dci.tpc == s.ueUl[w].tpc
  {
  }

  /**
   * One MCS per layer, from the layer's worst CQI over the UE's RBGs, and
   * one block per layer over all the UE's resource blocks.
   */
  lemma NewDataForMcs(c: Cell, s: DlState, w: int, rbgs: seq<nat>)
    requires CellOk(c) && StateOk(c, s) && AllocOk(c, s, w, rbgs)
    ensures var d := NewDataFor(c, s, w, rbgs);
      |d.dci.mcs| == c.layers[w] && |d.dci.tbsSize| == c.layers[w] &&
      forall j :: 0 <= j < c.layers[w] ==>
        0 <= WorstCqi(c, w, rbgs)[j] <= 15 &&
        d.dci.mcs[j] == Amc.McsFromCqi(WorstCqi(c, w, rbgs)[j]) &&
        d.dci.tbsSize[j] == Amc.GetDlTbSizeFromMcs(c.tbs, d.dci.mcs[j], |rbgs| * c.rbgSize) / 8
  {
  }

  /** The bitmap of the new transmission has exactly the bits of the UE's RBGs. */
  lemma NewDataForBitmap(c: Cell, s: DlState, w: int, rbgs: seq<nat>)
    requires CellOk(c) && StateOk(c, s) && AllocOk(c, s, w, rbgs)
    ensures NewDataFor(c, s, w, rbgs).dci.rbBitmap < Pow2(c.rbgNum)
    ensures forall j: nat :: Bit(NewDataFor(c, s, w, rbgs).dci.rbBitmap, j) <==> j in rbgs
  {
    assert NewDataFor(c, s, w, rbgs).dci.rbBitmap == Mask(rbgs);
    MaskBits(rbgs, c.rbgNum);
  }

  /**
   * The PDUs of the new transmission: one list per active channel of `w`,
   * each with one PDU per layer carrying an equal share of the layer's
   * block (the walk's job), so a layer's PDUs never exceed its block.
   */
  lemma NewDataForPdus(c: Cell, s: DlState, w: int, rbgs: seq<nat>)
    requires CellOk(c) && StateOk(c, s) && AllocOk(c, s, w, rbgs)
    ensures var d := NewDataFor(c, s, w, rbgs);
      var x := JobOf(c, s, w, rbgs);
      x.tb == d.dci.tbsSize &&
      |d.rlcPdus| == |ActiveLcs(s.reports, w)| &&
      (forall k :: 0 <= k < |d.rlcPdus| ==>
         |d.rlcPdus[k]| == c.layers[w] &&
         (forall j :: 0 <= j < c.layers[w] ==> d.rlcPdus[k][j].size == x.tb[j] / x.lcActives)) &&
      (forall j :: 0 <= j < c.layers[w] ==> LayerBytes(Column(d.rlcPdus, j)) <= x.tb[j])
  {
    var x := JobOf(c, s, w, rbgs);
    var lists := PduLists(s.reports, x, MAX_LCID);
    PduListsCount(s.reports, x, MAX_LCID);
    PduListsShape(s.reports, x, MAX_LCID);
    ActiveBelowAll(s.reports, w);
    forall j | 0 <= j < c.layers[w]
      ensures LayerBytes(Column(lists, j)) <= x.tb[j]
    {
      ColumnBytes(lists, j, x.tb[j] / x.lcActives);
      SharesBound(|lists|, x.tb[j], x.lcActives);
    }
  }

  /**
   * The HARQ record after the DCI stage: with HARQ on, the process is
   * taken, keeps the DCI with a fresh timer, and the PDUs of each layer
   * join the process's buffer; with HARQ off the record is kept.
   */
  lemma UeAfterSpec(c: Cell, s: DlState, w: int, rbgs: seq<nat>)
    requires CellOk(c) && StateOk(c, s) && AllocOk(c, s, w, rbgs)
    ensures var u := UeAfter(c, s, w, rbgs);
      var d := NewDataFor(c, s, w, rbgs);
      var hp := d.dci.harqProcess;
      (!c.harqOn ==> u == s.ues[w]) &&
      (c.harqOn ==>
         u.currentId == hp && u.status == s.ues[w].status[hp := 1] &&
         u.dci == s.ues[w].dci[hp := d.dci] && u.timers == s.ues[w].timers[hp := 0] &&
         forall j, i :: 0 <= j < NUM_LAYERS && 0 <= i < HARQ_PROC_NUM ==>
           u.pdus[j][i] == if i == hp then s.ues[w].pdus[j][i] + Column(d.rlcPdus, j) else s.ues[w].pdus[j][i])
  {
    if c.harqOn {
      var hp := TakeProcess(c.harqOn, s.ues[w]);
      var d := NewDataFor(c, s, w, rbgs);
      KeepAllEffect(hp.1, hp.0, d.rlcPdus);
    }
  }

  // ---------------------------------------------------------------------
  // The DCI stage and the throughput statistics
  // ---------------------------------------------------------------------

  ghost predicate AllocsOk(c: Cell, s: DlState, alloc: map<int, seq<nat>>)
  {
    forall w :: w in alloc ==> AllocOk(c, s, w, alloc[w])
  }

  /**
   * The DCI stage walks the allocated RNTIs in increasing order, and each
   * step reads and writes only its own RNTI's flow, HARQ record, channel
   * reports and power record. So the maps once the RNTIs below `n` are
   * done are the maps before the stage with the entries of those RNTIs
   * replaced.
   */
  function FlowsBelow(c: Cell, s: DlState, alloc: map<int, seq<nat>>, n: int): (r: map<int, FlowPerf>)
    requires CellOk(c) && StateOk(c, s) && AllocsOk(c, s, alloc)
    ensures r.Keys == s.flows.Keys
    ensures forall x :: x in r ==> r[x].avgThr == s.flows[x].avgThr && r[x].lastTtiBytes >= 0
  {
    map x | x in s.flows ::
      if x in alloc && x < n then s.flows[x].(lastTtiBytes := Sum(DciTbs(c, x, alloc[x]))) else s.flows[x]
  }

  function UesBelow(c: Cell, s: DlState, alloc: map<int, seq<nat>>, n: int): (r: map<int, DlUe>)
    requires CellOk(c) && StateOk(c, s) && AllocsOk(c, s, alloc)
    ensures r.Keys == s.ues.Keys && UesOk(r)
  {
    Replaced(s.ues, AllAfter(c, s, alloc), n)
  }

  /** `base` with the entries of `top` whose RNTI is below `n` put over it. */
  function Replaced(base: map<int, DlUe>, top: map<int, DlUe>, n: int): (r: map<int, DlUe>)
    ensures r.Keys == base.Keys
  {
    map x | x in base :: if x in top && x < n then top[x] else base[x]
  }

  /** The HARQ record of every allocated RNTI once its step is done. */
  function AllAfter(c: Cell, s: DlState, alloc: map<int, seq<nat>>): (r: map<int, DlUe>)
    requires CellOk(c) && StateOk(c, s) && AllocsOk(c, s, alloc)
    ensures r.Keys == alloc.Keys && forall w :: w in r ==> UeOk(r[w])
  {
    map w | w in alloc :: UeAfter(c, s, w, alloc[w])
  }

  function ReportsBelow(c: Cell, s: DlState, alloc: map<int, seq<nat>>, n: int): (r: map<FlowId, RlcReport>)
    requires CellOk(c) && StateOk(c, s) && AllocsOk(c, s, alloc)
    ensures r.Keys == s.reports.Keys && ReportsOk(r)
  {
    Overlay(s.reports, AllDrained(c, s, alloc), n)
  }

  /** `base` with the entries of `top` whose RNTI is below `n` put over it. */
  function Overlay(base: map<FlowId, RlcReport>, top: map<FlowId, RlcReport>, n: int): (r: map<FlowId, RlcReport>)
    ensures r.Keys == base.Keys
  {
    map f | f in base :: if f in top && f.rnti < n then top[f] else base[f]
  }

  /** Every active channel of an allocated RNTI, once drained. */
  function AllDrained(c: Cell, s: DlState, alloc: map<int, seq<nat>>): (r: map<FlowId, RlcReport>)
    requires CellOk(c) && StateOk(c, s) && AllocsOk(c, s, alloc)
    ensures forall f :: f in r <==> f in s.reports && f.rnti in alloc && Active(s.reports[f])
    ensures forall f :: f in r ==> ReportOk(r[f])
  {
    map f | f in s.reports && f.rnti in alloc && Active(s.reports[f]) :: Drained(c, s, alloc, f)
  }

  /** Channel `f` once drained by its PDUs, an equal share of each block of its RNTI's DCI. */
  function Drained(c: Cell, s: DlState, alloc: map<int, seq<nat>>, f: FlowId): (r: RlcReport)
    requires CellOk(c) && StateOk(c, s) && AllocsOk(c, s, alloc) && f in s.reports && f.rnti in alloc
    ensures ReportOk(r)
  {
    var x := JobOf(c, s, f.rnti, alloc[f.rnti]);
    DrainPdus(s.reports[f], f.lcId, LcPdus(f.lcId, x.tb, x.lcActives))
  }

  function UeUlBelow(c: Cell, s: DlState, alloc: map<int, seq<nat>>, n: int): (r: map<int, Power.UeInfo>)
    requires CellOk(c) && StateOk(c, s) && AllocsOk(c, s, alloc)
    ensures r.Keys == s.ueUl.Keys
  {
    map x | x in s.ueUl :: if x in alloc && x < n then PowerAfter(c, s, x) else s.ueUl[x]
  }

  function StateBelow(c: Cell, s: DlState, alloc: map<int, seq<nat>>, n: int): (r: DlState)
    requires CellOk(c) && StateOk(c, s) && AllocsOk(c, s, alloc)
    ensures StateOk(c, r)
  {
    DlState(FlowsBelow(c, s, alloc, n), UesBelow(c, s, alloc, n), ReportsBelow(c, s, alloc, n), UeUlBelow(c, s, alloc, n))
  }

  /** The keys of `m` below `n`, in increasing order. */
  function KeysBelow<D>(m: map<int, D>, n: nat): seq<int>
  {
    if n == 0 then [] else if n - 1 in m then KeysBelow(m, n - 1) + [n - 1] else KeysBelow(m, n - 1)
  }

  /** The keys below `n`, each once and in increasing order. */
  lemma {:induction false} KeysBelowSpec<D>(m: map<int, D>, n: nat)
    ensures forall k :: 0 <= k < |KeysBelow(m, n)| ==> KeysBelow(m, n)[k] in m && 0 <= KeysBelow(m, n)[k] < n
    ensures forall k1, k2 :: 0 <= k1 < k2 < |KeysBelow(m, n)| ==> KeysBelow(m, n)[k1] < KeysBelow(m, n)[k2]
    ensures forall x :: x in m && 0 <= x < n ==> x in KeysBelow(m, n)
  {
    if n > 0 {
      KeysBelowSpec(m, n - 1);
    }
  }

  /** The new transmissions of the allocated RNTIs below `n`, in increasing RNTI order. */
  function NewDataBelow(c: Cell, s: DlState, alloc: map<int, seq<nat>>, n: nat): (d: seq<NewData>)
    requires CellOk(c) && StateOk(c, s) && AllocsOk(c, s, alloc)
    ensures |d| == |KeysBelow(alloc, n)| && forall k :: 0 <= k < |d| ==> BlocksOk(d[k])
  {
    var keys := KeysBelow(alloc, n);
    KeysBelowSpec(alloc, n);
    seq(|keys|, k requires 0 <= k < |keys| => NewDataFor(c, s, keys[k], alloc[keys[k]]))
  }

  /**
   * Each transmission is that of an allocated RNTI below `n`, for that
   * RNTI's RBGs; the RNTIs increase; and every allocated RNTI below `n`
   * has one.
   */
  lemma NewDataBelowSpec(c: Cell, s: DlState, alloc: map<int, seq<nat>>, n: nat)
    requires CellOk(c) && StateOk(c, s) && AllocsOk(c, s, alloc)
    ensures var d := NewDataBelow(c, s, alloc, n);
      forall k :: 0 <= k < |d| ==>
        d[k].rnti in alloc && 0 <= d[k].rnti < n && d[k] == NewDataFor(c, s, d[k].rnti, alloc[d[k].rnti])
    ensures var d := NewDataBelow(c, s, alloc, n);
      forall k1, k2 :: 0 <= k1 < k2 < |d| ==> d[k1].rnti < d[k2].rnti
    ensures var d := NewDataBelow(c, s, alloc, n);
      forall w :: w in alloc && 0 <= w < n ==> exists k :: 0 <= k < |d| && d[k].rnti == w
  {
    var keys := KeysBelow(alloc, n);
    var d := NewDataBelow(c, s, alloc, n);
    KeysBelowSpec(alloc, n);
    forall k | 0 <= k < |d|
      ensures d[k].rnti == keys[k] && d[k] == NewDataFor(c, s, keys[k], alloc[keys[k]])
    {
    }
    forall w | w in alloc && 0 <= w < n
      ensures exists k :: 0 <= k < |d| && d[k].rnti == w
    {
      var k :| 0 <= k < |keys| && keys[k] == w;
      assert d[k].rnti == w;
    }
  }

  /** The flows at the start of the DCI stage: no bytes sent in this TTI yet. */
  function ResetTti(flows: map<int, FlowPerf>): (r: map<int, FlowPerf>)
    ensures r.Keys == flows.Keys && forall x :: x in flows ==> r[x] == flows[x].(lastTtiBytes := 0)
  {
    map x | x in flows :: flows[x].(lastTtiBytes := 0)
  }

  /**
   * A flow once its TTI is counted: the bytes join the total and the
   * throughput (bytes per second over a 1 ms TTI) joins the moving
   * average over the time window of 99 TTIs.
   */
  function Averaged(f: FlowPerf): FlowPerf
  {
    FlowPerf(f.totalBytes + f.lastTtiBytes, 0,
             (1.0 - 1.0 / TIME_WINDOW) * f.avgThr + (1.0 / TIME_WINDOW) * (f.lastTtiBytes as real / 0.001))
  }

  /**
   * The new average stays positive, lies between the old average and the
   * TTI's own throughput, and moves a 99th of the way towards the latter.
   */
  lemma AveragedSpec(f: FlowPerf)
    requires f.avgThr > 0.0 && f.lastTtiBytes >= 0
    ensures Averaged(f).avgThr > 0.0
    ensures Averaged(f).avgThr - f.avgThr == (1000.0 * f.lastTtiBytes as real - f.avgThr) / TIME_WINDOW
    ensures f.avgThr <= 1000.0 * f.lastTtiBytes as real ==> f.avgThr <= Averaged(f).avgThr <= 1000.0 * f.lastTtiBytes as real
    ensures 1000.0 * f.lastTtiBytes as real <= f.avgThr ==> 1000.0 * f.lastTtiBytes as real <= Averaged(f).avgThr <= f.avgThr
    ensures Averaged(f).totalBytes == f.totalBytes + f.lastTtiBytes && Averaged(f).lastTtiBytes == 0
  {
    assert f.lastTtiBytes as real / 0.001 == 1000.0 * f.lastTtiBytes as real;
  }

  function UpdateStats(flows: map<int, FlowPerf>): (r: map<int, FlowPerf>)
    ensures r.Keys == flows.Keys && forall x :: x in flows ==> r[x] == Averaged(flows[x])
  {
    map x | x in flows :: Averaged(flows[x])
  }

  /** The statistics update keeps every average positive. */
  lemma UpdateStatsOk(c: Cell, s: DlState)
    requires StateOk(c, s)
    ensures StateOk(c, s.(flows := UpdateStats(s.flows)))
  {
    forall x | x in s.flows
      ensures UpdateStats(s.flows)[x].avgThr > 0.0
    {
      AveragedSpec(s.flows[x]);
    }
  }

  /** The PF pass has room to run: the flows it can pick all have an uplink power record. */
  ghost predicate TtiOk(c: Cell, s: DlState, m0: seq<bool>)
  {
    CellOk(c) && StateOk(c, s) && |m0| >= c.rbgNum && forall w :: w in s.flows ==> w in s.ueUl
  }

  /** Every RNTI the PF pass allocates to can be served by the DCI stage, after the TTI reset. */
  lemma PfAllocsOk(c: Cell, s: DlState, ffr: (int, int) -> bool, served: set<int>, m0: seq<bool>)
    requires TtiOk(c, s, m0)
    ensures StateOk(c, s.(flows := ResetTti(s.flows)))
    ensures AllocsOk(c, s.(flows := ResetTti(s.flows)), PfAllocation(c, s, ffr, served, m0).alloc)
  {
    var a := PfAllocation(c, s, ffr, served, m0);
    var s1 := s.(flows := ResetTti(s.flows));
    PfAllocationSpec(c, s, ffr, served, m0);
    forall w | w in a.alloc
      ensures AllocOk(c, s1, w, a.alloc[w])
    {
      var j := a.alloc[w][0];
      assert j in a.alloc[w];
      assert Candidate(c, s, ffr, served, j, w);
    }
  }

  /**
   * The new-data part of `DoSchedDlTriggerReq` once retransmissions have
   * taken `allocNum` RBGs of `m0`: with every RBG taken it returns at
   * once; otherwise the PF pass, the reset of the TTI bytes, the DCI stage
   * and the statistics update. The result is the new state, the new
   * transmissions and the RBG map.
   */
  function NewDataTti(c: Cell, s: DlState, ffr: (int, int) -> bool, served: set<int>, m0: seq<bool>, allocNum: int):
    (r: (DlState, seq<NewData>, seq<bool>))
    requires TtiOk(c, s, m0)
    ensures StateOk(c, r.0) && |r.2| == |m0|
  {
    if allocNum == c.rbgNum then (s, [], m0)
    else (PfState(c, s, ffr, served, m0), PfNewData(c, s, ffr, served, m0), PfAllocation(c, s, ffr, served, m0).rbgMap)
  }

  /** The state once the DCI stage and the statistics update have run on the PF pass's allocation. */
  function PfState(c: Cell, s: DlState, ffr: (int, int) -> bool, served: set<int>, m0: seq<bool>): (r: DlState)
    requires TtiOk(c, s, m0)
    ensures StateOk(c, r)
  {
    var a := PfAllocation(c, s, ffr, served, m0);
    var s1 := s.(flows := ResetTti(s.flows));
    PfAllocsOk(c, s, ffr, served, m0);
    var d := StateBelow(c, s1, a.alloc, RNTI_LIMIT);
    UpdateStatsOk(c, d);
    d.(flows := UpdateStats(d.flows))
  }

  /** The new transmissions of the DCI stage on the PF pass's allocation, in RNTI order. */
  function PfNewData(c: Cell, s: DlState, ffr: (int, int) -> bool, served: set<int>, m0: seq<bool>): (d: seq<NewData>)
    requires TtiOk(c, s, m0)
    ensures forall k :: 0 <= k < |d| ==> BlocksOk(d[k])
  {
    var a := PfAllocation(c, s, ffr, served, m0);
    PfAllocsOk(c, s, ffr, served, m0);
    NewDataBelow(c, s.(flows := ResetTti(s.flows)), a.alloc, RNTI_LIMIT)
  }

  /**
   * The transmissions are those of the
   * RNTIs the PF pass allocated to, one each, in increasing RNTI order,
   * each built from the state after the TTI reset.
   */
  lemma PfNewDataSpec(c: Cell, s: DlState, ffr: (int, int) -> bool, served: set<int>, m0: seq<bool>)
    requires TtiOk(c, s, m0)
    ensures StateOk(c, s.(flows := ResetTti(s.flows)))
    ensures AllocsOk(c, s.(flows := ResetTti(s.flows)), PfAllocation(c, s, ffr, served, m0).alloc)
    ensures var a := PfAllocation(c, s, ffr, served, m0); var d := PfNewData(c, s, ffr, served, m0);
      forall k :: 0 <= k < |d| ==>
        d[k].rnti in a.alloc && d[k] == NewDataFor(c, s.(flows := ResetTti(s.flows)), d[k].rnti, a.alloc[d[k].rnti])
    ensures var d := PfNewData(c, s, ffr, served, m0);
      forall k1, k2 :: 0 <= k1 < k2 < |d| ==> d[k1].rnti < d[k2].rnti
    ensures var a := PfAllocation(c, s, ffr, served, m0); var d := PfNewData(c, s, ffr, served, m0);
      forall w :: w in a.alloc ==> exists k :: 0 <= k < |d| && d[k].rnti == w
  {
    var a := PfAllocation(c, s, ffr, served, m0);
    var s1 := s.(flows := ResetTti(s.flows));
    PfAllocsOk(c, s, ffr, served, m0);
    NewDataBelowSpec(c, s1, a.alloc, RNTI_LIMIT);
    forall w | w in a.alloc
      ensures 0 <= w < RNTI_LIMIT
    {
      assert AllocOk(c, s1, w, a.alloc[w]);
    }
  }

  /** The RBGs the pass allocates to `w` are the free RBGs `w` wins. */
  lemma PfAllocationOf(c: Cell, s: DlState, ffr: (int, int) -> bool, served: set<int>, m0: seq<bool>, w: int)
    requires TtiOk(c, s, m0)
    ensures var a := PfAllocation(c, s, ffr, served, m0);
      forall j: nat :: (w in a.alloc && j in a.alloc[w]) <==>
        (j < c.rbgNum && !m0[j] && Winner(c, s, ffr, served, j) == Some(w))
    ensures var a := PfAllocation(c, s, ffr, served, m0);
      w in a.alloc <==> exists j :: 0 <= j < c.rbgNum && !m0[j] && Winner(c, s, ffr, served, j) == Some(w)
  {
    var a := PfAllocation(c, s, ffr, served, m0);
    PfAllocationSpec(c, s, ffr, served, m0);
    if w in a.alloc {
      var j := a.alloc[w][0];
      assert j in a.alloc[w];
    }
  }

  /**
   * The bitmap of each new transmission has exactly the RBGs that were
   * free before the pass and that its RNTI won.
   */
  lemma PfBitmaps(c: Cell, s: DlState, ffr: (int, int) -> bool, served: set<int>, m0: seq<bool>)
    requires TtiOk(c, s, m0)
    ensures var d := PfNewData(c, s, ffr, served, m0);
      forall k, j: nat :: 0 <= k < |d| ==>
        d[k].dci.rbBitmap < Pow2(c.rbgNum) &&
        (Bit(d[k].dci.rbBitmap, j) <==> j < c.rbgNum && !m0[j] && Winner(c, s, ffr, served, j) == Some(d[k].rnti))
  {
    var a := PfAllocation(c, s, ffr, served, m0);
    var s1 := s.(flows := ResetTti(s.flows));
    var d := PfNewData(c, s, ffr, served, m0);
    PfNewDataSpec(c, s, ffr, served, m0);
    forall k | 0 <= k < |d|
      ensures d[k].dci.rbBitmap < Pow2(c.rbgNum)
      ensures forall j: nat :: Bit(d[k].dci.rbBitmap, j) <==> j < c.rbgNum && !m0[j] && Winner(c, s, ffr, served, j) == Some(d[k].rnti)
    {
      var w := d[k].rnti;
      NewDataForBitmap(c, s1, w, a.alloc[w]);
      PfAllocationOf(c, s, ffr, served, m0, w);
    }
  }

  /** An RNTI gets a new transmission exactly when it wins some RBG that was free. */
  lemma PfServed(c: Cell, s: DlState, ffr: (int, int) -> bool, served: set<int>, m0: seq<bool>, w: int)
    requires TtiOk(c, s, m0)
    ensures var d := PfNewData(c, s, ffr, served, m0);
      (exists k :: 0 <= k < |d| && d[k].rnti == w) <==>
      (exists j :: 0 <= j < c.rbgNum && !m0[j] && Winner(c, s, ffr, served, j) == Some(w))
  {
    PfNewDataSpec(c, s, ffr, served, m0);
    PfAllocationOf(c, s, ffr, served, m0, w);
  }

  /** The blocks of the new transmission are the UE's per-layer blocks. */
  lemma NewDataForTbs(c: Cell, s: DlState, w: int, rbgs: seq<nat>)
    requires CellOk(c) && StateOk(c, s) && AllocOk(c, s, w, rbgs)
    ensures NewDataFor(c, s, w, rbgs).dci.tbsSize == DciTbs(c, w, rbgs)
    ensures Sum(NewDataFor(c, s, w, rbgs).dci.tbsSize) >= 0
  {
  }

  /**
   * The flows after the TTI, for those with a new transmission: the
   * bytes of its blocks join the total and the average.
   */
  lemma PfFlowsServed(c: Cell, s: DlState, ffr: (int, int) -> bool, served: set<int>, m0: seq<bool>)
    requires TtiOk(c, s, m0)
    ensures PfState(c, s, ffr, served, m0).flows.Keys == s.flows.Keys
    ensures var r := PfState(c, s, ffr, served, m0); var d := PfNewData(c, s, ffr, served, m0);
      forall k :: 0 <= k < |d| ==>
        d[k].rnti in s.flows &&
        r.flows[d[k].rnti] == Averaged(s.flows[d[k].rnti].(lastTtiBytes := Sum(d[k].dci.tbsSize)))
  {
    var a := PfAllocation(c, s, ffr, served, m0);
    var s1 := s.(flows := ResetTti(s.flows));
    var d := PfNewData(c, s, ffr, served, m0);
    PfNewDataSpec(c, s, ffr, served, m0);
    var fb := FlowsBelow(c, s1, a.alloc, RNTI_LIMIT);
    assert PfState(c, s, ffr, served, m0).flows == UpdateStats(fb);
    forall k | 0 <= k < |d|
      ensures d[k].rnti in s.flows && fb[d[k].rnti] == s.flows[d[k].rnti].(lastTtiBytes := Sum(d[k].dci.tbsSize))
    {
      var w := d[k].rnti;
      assert AllocOk(c, s1, w, a.alloc[w]);
      NewDataForTbs(c, s1, w, a.alloc[w]);
    }
  }

  /** The flows without a new transmission count no bytes in this TTI. */
  lemma PfFlowsIdle(c: Cell, s: DlState, ffr: (int, int) -> bool, served: set<int>, m0: seq<bool>)
    requires TtiOk(c, s, m0)
    ensures var r := PfState(c, s, ffr, served, m0); var d := PfNewData(c, s, ffr, served, m0);
      forall x :: x in s.flows && (forall k :: 0 <= k < |d| ==> d[k].rnti != x) ==>
        x in r.flows && r.flows[x] == Averaged(s.flows[x].(lastTtiBytes := 0))
  {
    var a := PfAllocation(c, s, ffr, served, m0);
    var s1 := s.(flows := ResetTti(s.flows));
    var d := PfNewData(c, s, ffr, served, m0);
    PfNewDataSpec(c, s, ffr, served, m0);
    var fb := FlowsBelow(c, s1, a.alloc, RNTI_LIMIT);
    assert PfState(c, s, ffr, served, m0).flows == UpdateStats(fb);
    forall x | x in s.flows && (forall k :: 0 <= k < |d| ==> d[k].rnti != x)
      ensures fb[x] == s.flows[x].(lastTtiBytes := 0)
    {
      assert x !in a.alloc;
    }
  }

  /**
   * The HARQ records after the TTI: with HARQ on, each RNTI with a new
   * transmission has taken the process its DCI names, the first idle one
   * after its current one, and keeps the DCI there with a fresh timer.
   */
  lemma PfHarq(c: Cell, s: DlState, ffr: (int, int) -> bool, served: set<int>, m0: seq<bool>)
    requires TtiOk(c, s, m0)
    ensures PfState(c, s, ffr, served, m0).ues.Keys == s.ues.Keys
    ensures var r := PfState(c, s, ffr, served, m0); var d := PfNewData(c, s, ffr, served, m0);
      forall k :: 0 <= k < |d| ==>
        var w := d[k].rnti; var hp := d[k].dci.harqProcess;
        w in s.ues && 0 <= hp < HARQ_PROC_NUM &&
        (!c.harqOn ==> hp == 0 && r.ues[w] == s.ues[w]) &&
        (c.harqOn ==>
           hp == NextProcessId(s.ues[w]) && s.ues[w].status[hp] == 0 &&
           r.ues[w].currentId == hp && r.ues[w].status == s.ues[w].status[hp := 1] &&
           r.ues[w].dci == s.ues[w].dci[hp := d[k].dci] && r.ues[w].timers == s.ues[w].timers[hp := 0])
  {
    var a := PfAllocation(c, s, ffr, served, m0);
    var s1 := s.(flows := ResetTti(s.flows));
    var d := PfNewData(c, s, ffr, served, m0);
    PfNewDataSpec(c, s, ffr, served, m0);
    var ub := UesBelow(c, s1, a.alloc, RNTI_LIMIT);
    assert PfState(c, s, ffr, served, m0).ues == ub;
    forall k | 0 <= k < |d|
      ensures var w := d[k].rnti; var hp := d[k].dci.harqProcess;
        w in s.ues && 0 <= hp < HARQ_PROC_NUM &&
        (!c.harqOn ==> hp == 0 && ub[w] == s.ues[w]) &&
        (c.harqOn ==>
           hp == NextProcessId(s.ues[w]) && s.ues[w].status[hp] == 0 &&
           ub[w].currentId == hp && ub[w].status == s.ues[w].status[hp := 1] &&
           ub[w].dci == s.ues[w].dci[hp := d[k].dci] && ub[w].timers == s.ues[w].timers[hp := 0])
    {
      var w := d[k].rnti;
      assert AllocOk(c, s1, w, a.alloc[w]);
      assert ub[w] == UeAfter(c, s1, w, a.alloc[w]);
      NewDataForDci(c, s1, w, a.alloc[w]);
      UeAfterSpec(c, s1, w, a.alloc[w]);
    }
  }

  /**
   * The uplink power records after the TTI: each RNTI with a new
   * transmission carries its pending TPC command in the DCI and has the
   * power update that goes with it applied.
   */
  lemma PfPower(c: Cell, s: DlState, ffr: (int, int) -> bool, served: set<int>, m0: seq<bool>)
    requires TtiOk(c, s, m0)
    ensures PfState(c, s, ffr, served, m0).ueUl.Keys == s.ueUl.Keys
    ensures var r := PfState(c, s, ffr, served, m0); var d := PfNewData(c, s, ffr, served, m0);
      forall k :: 0 <= k < |d| ==>
        d[k].rnti in s.ueUl && d[k].dci.tpc == s.ueUl[d[k].rnti].tpc &&
        r.ueUl[d[k].rnti] == Power.DciPowerUpdate(s.ueUl[d[k].rnti], c.effState, c.tti)
  {
    var a := PfAllocation(c, s, ffr, served, m0);
    var s1 := s.(flows := ResetTti(s.flows));
    var d := PfNewData(c, s, ffr, served, m0);
    PfNewDataSpec(c, s, ffr, served, m0);
    var pb := UeUlBelow(c, s1, a.alloc, RNTI_LIMIT);
    assert PfState(c, s, ffr, served, m0).ueUl == pb;
    forall k | 0 <= k < |d|
      ensures d[k].rnti in s.ueUl && d[k].dci.tpc == s.ueUl[d[k].rnti].tpc
    {
      assert AllocOk(c, s1, d[k].rnti, a.alloc[d[k].rnti]);
      NewDataForDci(c, s1, d[k].rnti, a.alloc[d[k].rnti]);
    }
  }

  /** The HARQ, power and RLC records of an RNTI without a new transmission are unchanged. */
  lemma PfUntouched(c: Cell, s: DlState, ffr: (int, int) -> bool, served: set<int>, m0: seq<bool>, x: int)
    requires TtiOk(c, s, m0)
    requires var d := PfNewData(c, s, ffr, served, m0); forall k :: 0 <= k < |d| ==> d[k].rnti != x
    ensures var r := PfState(c, s, ffr, served, m0);
      (x in s.ues ==> x in r.ues && r.ues[x] == s.ues[x]) &&
      (x in s.ueUl ==> x in r.ueUl && r.ueUl[x] == s.ueUl[x]) &&
      (forall f :: f in s.reports && f.rnti == x ==> f in r.reports && r.reports[f] == s.reports[f])
  {
    var a := PfAllocation(c, s, ffr, served, m0);
    var s1 := s.(flows := ResetTti(s.flows));
    PfNewDataSpec(c, s, ffr, served, m0);
    assert x !in a.alloc;
    assert PfState(c, s, ffr, served, m0) ==
      StateBelow(c, s1, a.alloc, RNTI_LIMIT).(flows := UpdateStats(FlowsBelow(c, s1, a.alloc, RNTI_LIMIT)));
  }

  /**
   * The RLC reports after the TTI: every active channel of the RNTI of the
   * `k`th new transmission is drained by one PDU per layer, each an equal share
   * among the RNTI's active channels of that layer's block.
   */
  lemma PfReports(c: Cell, s: DlState, ffr: (int, int) -> bool, served: set<int>, m0: seq<bool>, k: int)
    requires TtiOk(c, s, m0) && 0 <= k < |PfNewData(c, s, ffr, served, m0)|
    ensures PfState(c, s, ffr, served, m0).reports.Keys == s.reports.Keys
    ensures var r := PfState(c, s, ffr, served, m0); var e := PfNewData(c, s, ffr, served, m0)[k];
      forall f :: f in s.reports && f.rnti == e.rnti && Active(s.reports[f]) ==>
        f in ActiveLcs(s.reports, f.rnti) &&
        r.reports[f] == DrainPdus(s.reports[f], f.lcId, LcPdus(f.lcId, e.dci.tbsSize, |ActiveLcs(s.reports, f.rnti)|))
  {
    var a := PfAllocation(c, s, ffr, served, m0);
    var s1 := s.(flows := ResetTti(s.flows));
    var e := PfNewData(c, s, ffr, served, m0)[k];
    PfNewDataSpec(c, s, ffr, served, m0);
    assert PfState(c, s, ffr, served, m0).reports == ReportsBelow(c, s1, a.alloc, RNTI_LIMIT);
    ServedDrained(c, s1, a.alloc, e.rnti);
  }

  /** After the DCI stage every active channel of an allocated RNTI is drained by its equal share of each block. */
  lemma ServedDrained(c: Cell, s: DlState, alloc: map<int, seq<nat>>, w: int)
    requires CellOk(c) && StateOk(c, s) && AllocsOk(c, s, alloc) && w in alloc
    ensures forall f :: f in s.reports && f.rnti == w && Active(s.reports[f]) ==>
      f in ActiveLcs(s.reports, f.rnti) &&
      ReportsBelow(c, s, alloc, RNTI_LIMIT)[f] == DrainPdus(s.reports[f], f.lcId,
        LcPdus(f.lcId, NewDataFor(c, s, w, alloc[w]).dci.tbsSize, |ActiveLcs(s.reports, f.rnti)|))
  {
    NewDataForTbs(c, s, w, alloc[w]);
    forall f | f in s.reports && f.rnti == w && Active(s.reports[f])
      ensures f in ActiveLcs(s.reports, f.rnti)
      ensures ReportsBelow(c, s, alloc, RNTI_LIMIT)[f] ==
        DrainPdus(s.reports[f], f.lcId, LcPdus(f.lcId, DciTbs(c, w, alloc[w]), |ActiveLcs(s.reports, f.rnti)|))
    {
      DrainedAt(c, s, alloc, f);
    }
  }

  /** After the DCI stage an active channel of an allocated RNTI is drained by its equal share of each block. */
  lemma DrainedAt(c: Cell, s: DlState, alloc: map<int, seq<nat>>, f: FlowId)
    requires CellOk(c) && StateOk(c, s) && AllocsOk(c, s, alloc)
    requires f in s.reports && f.rnti in alloc && Active(s.reports[f])
    ensures f in ActiveLcs(s.reports, f.rnti)
    ensures ReportsBelow(c, s, alloc, RNTI_LIMIT)[f] ==
      DrainPdus(s.reports[f], f.lcId, LcPdus(f.lcId, DciTbs(c, f.rnti, alloc[f.rnti]), |ActiveLcs(s.reports, f.rnti)|))
  {
    assert f in ActiveLcs(s.reports, f.rnti);
    assert f in AllDrained(c, s, alloc);
  }

  /**
   * The new-data part of the TTI: with every RBG already taken nothing
   * changes and nothing is sent; otherwise the RBG map after the pass has
   * exactly the RBGs that were taken or that some UE competed for, and the
   * state and transmissions are those of the DCI stage.
   */
  lemma NewDataTtiSpec(c: Cell, s: DlState, ffr: (int, int) -> bool, served: set<int>, m0: seq<bool>, allocNum: int)
    requires TtiOk(c, s, m0)
    ensures var r := NewDataTti(c, s, ffr, served, m0, allocNum);
      allocNum == c.rbgNum ==> r.0 == s && r.1 == [] && r.2 == m0
    ensures var r := NewDataTti(c, s, ffr, served, m0, allocNum);
      allocNum != c.rbgNum ==>
        r.0 == PfState(c, s, ffr, served, m0) && r.1 == PfNewData(c, s, ffr, served, m0) &&
        (forall j :: 0 <= j < c.rbgNum ==> (r.2[j] <==> m0[j] || exists w :: Candidate(c, s, ffr, served, j, w))) &&
        (forall j :: c.rbgNum <= j < |m0| ==> r.2[j] == m0[j])
  {
    if allocNum != c.rbgNum {
      PfAllocationSpec(c, s, ffr, served, m0);
    }
  }
}
