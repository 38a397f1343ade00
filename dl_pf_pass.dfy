/**
 * The new-data part of `DoSchedDlTriggerReq` as the loops the scheduler
 * runs: the search of each free RBG for the flow of greatest metric, the
 * pass over the RBGs that fills the RBG map and `allocationMap`, and the
 * walk over `allocationMap` in RNTI order that builds the DCIs, with the
 * walk over a UE's RBGs for the CQI of each layer. Each loop
 * is proved to compute the function of module DlPf that the properties
 * of the scheduler are stated on.
 */
module DlPfPass {
  import opened DlHarq
  import opened DlRlc
  import opened DlPf

  /**
   * The walk over `m_flowStatsDl` for RBG `i`: `itMax` and `rcqiMax` move
   * to a candidate whose metric is strictly greater than the one held.
   */
  method FindWinner(c: Cell, s: DlState, ffr: (int, int) -> bool, served: set<int>, i: int) returns (w: Option<int>)
    requires CellOk(c) && StateOk(c, s) && 0 <= i < c.rbgNum
    ensures w == Winner(c, s, ffr, served, i)
  {
    var m := Metrics(c, s, ffr, served, i);
    var ch := Choice(None, 0.0);
    for r := 0 to RNTI_LIMIT
      invariant ch == BestOf(m, r)
    {
      if r in m && m[r] > ch.best {
        ch := Choice(Some(r), m[r]);
      }
    }
    w := ch.winner;
  }

  /**
   * The RBG pass: every RBG the retransmissions left free goes to the
   * winner of its search, which is marked in the RBG map and appended to
   * the winner's list in `allocationMap`.
   */
  method RbgPass(c: Cell, s: DlState, ffr: (int, int) -> bool, served: set<int>, m0: seq<bool>)
    returns (rbgMap: seq<bool>, alloc: map<int, seq<nat>>)
    requires CellOk(c) && StateOk(c, s) && |m0| >= c.rbgNum
    ensures Allocation(rbgMap, alloc) == PfAllocation(c, s, ffr, served, m0)
  {
    ghost var ws := Winners(c, s, ffr, served);
    rbgMap, alloc := m0, map[];
    for i := 0 to c.rbgNum
      invariant Allocation(rbgMap, alloc) == Assign(ws, m0, i)
    {
      rbgMap, alloc := RbgStep(c, s, ffr, served, m0, i, rbgMap, alloc);
    }
  }

  /**
   * One turn of the RBG pass: RBG `i`, if still free, goes to the winner
   * of its search, if any.
   */
  method RbgStep(c: Cell, s: DlState, ffr: (int, int) -> bool, served: set<int>, m0: seq<bool>, i: nat,
                 rbgMap0: seq<bool>, alloc0: map<int, seq<nat>>)
    returns (rbgMap: seq<bool>, alloc: map<int, seq<nat>>)
    requires CellOk(c) && StateOk(c, s) && i < c.rbgNum <= |m0|
    requires Allocation(rbgMap0, alloc0) == Assign(Winners(c, s, ffr, served), m0, i)
    ensures Allocation(rbgMap, alloc) == Assign(Winners(c, s, ffr, served), m0, i + 1)
  {
    ghost var ws := Winners(c, s, ffr, served);
    rbgMap, alloc := rbgMap0, alloc0;
    if !rbgMap[i] {
      var w := FindWinner(c, s, ffr, served, i);
      assert w == ws[i];
      if w.Some? {
        rbgMap := rbgMap[i := true];
        alloc := alloc[w.value := RbgsOf(alloc, w.value) + [i]];
      }
    }
  }

  /**
   * `worstCqi` of RNTI `r` as the walk over its RBGs computes it, from CQI
   * 15 on both layers: each RBG with a report entry lowers each layer to
   * the entry's CQI or to 1 for a layer the entry lacks, and each RBG
   * without one (or a UE without a report) puts the UE's layers at 1.
   */
  method WorstCqiLoop(c: Cell, r: int, rbgs: seq<nat>) returns (w: seq<int>)
    requires r in c.layers
    ensures w == WorstCqi(c, r, rbgs)
  {
    w := [15, 15];
    var n := c.layers[r];
    if r in c.a30 {
      var hl := c.a30[r];
      for k := 0 to |rbgs|
        invariant w == WorstUpTo(hl, rbgs, n, k)
      {
        if rbgs[k] < |hl| {
          w := LayerMin(w, hl[rbgs[k]], n);
        } else {
          w := Fallback(w, n);
        }
      }
    } else {
      w := Fallback(w, n);
    }
  }

  /** Past an allocated RNTI `n`, the list of transmissions gains that RNTI's transmission. */
  lemma NewDataBelowNext(c: Cell, s: DlState, alloc: map<int, seq<nat>>, n: nat)
    requires CellOk(c) && StateOk(c, s) && AllocsOk(c, s, alloc)
    ensures n in alloc ==>
      NewDataBelow(c, s, alloc, n + 1) == NewDataBelow(c, s, alloc, n) + [NewDataFor(c, s, n, alloc[n])]
    ensures n !in alloc ==> NewDataBelow(c, s, alloc, n + 1) == NewDataBelow(c, s, alloc, n)
  {
    KeysBelowSpec(alloc, n);
    KeysBelowSpec(alloc, n + 1);
    var a := NewDataBelow(c, s, alloc, n);
    var b := NewDataBelow(c, s, alloc, n + 1);
    if n in alloc {
      assert KeysBelow(alloc, n + 1) == KeysBelow(alloc, n) + [n];
      assert forall k :: 0 <= k < |a| ==> b[k] == a[k];
    } else {
      assert KeysBelow(alloc, n + 1) == KeysBelow(alloc, n);
    }
  }

  /** Past an allocated RNTI `n`, the state gains that RNTI's new flow, HARQ, report and power entries. */
  lemma StateBelowNext(c: Cell, s: DlState, alloc: map<int, seq<nat>>, n: nat)
    requires CellOk(c) && StateOk(c, s) && AllocsOk(c, s, alloc) && n in alloc
    ensures StateBelow(c, s, alloc, n + 1) == Served(c, s, alloc, n, StateBelow(c, s, alloc, n))
  {
    FlowsBelowNext(c, s, alloc, n);
    UesBelowNext(c, s, alloc, n);
    ReportsBelowNext(c, s, alloc, n);
    UeUlBelowNext(c, s, alloc, n);
  }

  lemma FlowsBelowNext(c: Cell, s: DlState, alloc: map<int, seq<nat>>, n: nat)
    requires CellOk(c) && StateOk(c, s) && AllocsOk(c, s, alloc)
    ensures n in alloc ==>
      FlowsBelow(c, s, alloc, n + 1) == FlowsBelow(c, s, alloc, n)[n := s.flows[n].(lastTtiBytes := Sum(DciTbs(c, n, alloc[n])))]
    ensures n !in alloc ==> FlowsBelow(c, s, alloc, n + 1) == FlowsBelow(c, s, alloc, n)
  {
  }

  lemma UesBelowNext(c: Cell, s: DlState, alloc: map<int, seq<nat>>, n: nat)
    requires CellOk(c) && StateOk(c, s) && AllocsOk(c, s, alloc)
    ensures n in alloc ==> UesBelow(c, s, alloc, n + 1) == UesBelow(c, s, alloc, n)[n := UeAfter(c, s, n, alloc[n])]
    ensures n !in alloc ==> UesBelow(c, s, alloc, n + 1) == UesBelow(c, s, alloc, n)
  {
    ReplacedNext(s.ues, AllAfter(c, s, alloc), n);
  }

  /** Raising the bound past `n` puts the entry of `top` at `n`, if any, over the map. */
  lemma ReplacedNext(base: map<int, DlUe>, top: map<int, DlUe>, n: int)
    ensures n in top && n in base ==> Replaced(base, top, n + 1) == Replaced(base, top, n)[n := top[n]]
    ensures n !in top ==> Replaced(base, top, n + 1) == Replaced(base, top, n)
  {
  }

  lemma UeUlBelowNext(c: Cell, s: DlState, alloc: map<int, seq<nat>>, n: nat)
    requires CellOk(c) && StateOk(c, s) && AllocsOk(c, s, alloc)
    ensures n in alloc ==> UeUlBelow(c, s, alloc, n + 1) == UeUlBelow(c, s, alloc, n)[n := PowerAfter(c, s, n)]
    ensures n !in alloc ==> UeUlBelow(c, s, alloc, n + 1) == UeUlBelow(c, s, alloc, n)
  {
  }

  lemma ReportsBelowNext(c: Cell, s: DlState, alloc: map<int, seq<nat>>, n: nat)
    requires CellOk(c) && StateOk(c, s) && AllocsOk(c, s, alloc)
    ensures n in alloc ==> ReportsBelow(c, s, alloc, n + 1) == ServedReports(c, s, alloc, n, ReportsBelow(c, s, alloc, n))
    ensures n !in alloc ==> ReportsBelow(c, s, alloc, n + 1) == ReportsBelow(c, s, alloc, n)
  {
    var top := AllDrained(c, s, alloc);
    OverlayNext(s.reports, top, n);
    if n !in alloc {
      OverlaySkip(s.reports, top, n);
    }
  }

  /** Raising the bound past `n` puts the entries of `top` with RNTI `n` over the overlay. */
  lemma OverlayNext(base: map<FlowId, RlcReport>, top: map<FlowId, RlcReport>, n: int)
    ensures Overlay(base, top, n + 1) == map f | f in Overlay(base, top, n) ::
      if f.rnti == n && f in top then top[f] else Overlay(base, top, n)[f]
  {
  }

  /** With no entry of `top` at RNTI `n`, raising the bound past `n` changes nothing. */
  lemma OverlaySkip(base: map<FlowId, RlcReport>, top: map<FlowId, RlcReport>, n: int)
    requires forall f :: f in top ==> f.rnti != n
    ensures Overlay(base, top, n + 1) == Overlay(base, top, n)
  {
  }

  /** Before the walk, the state is the one it starts from. */
  lemma StateBelowNone(c: Cell, s: DlState, alloc: map<int, seq<nat>>)
    requires CellOk(c) && StateOk(c, s) && AllocsOk(c, s, alloc)
    ensures StateBelow(c, s, alloc, 0) == s
  {
    FlowsUesBelowNone(c, s, alloc);
    OverlayNone(s.reports, AllDrained(c, s, alloc));
  }

  lemma FlowsUesBelowNone(c: Cell, s: DlState, alloc: map<int, seq<nat>>)
    requires CellOk(c) && StateOk(c, s) && AllocsOk(c, s, alloc)
    ensures FlowsBelow(c, s, alloc, 0) == s.flows && UesBelow(c, s, alloc, 0) == s.ues && UeUlBelow(c, s, alloc, 0) == s.ueUl
  {
    assert FlowsBelow(c, s, alloc, 0) == s.flows;
    ReplacedNone(s.ues, AllAfter(c, s, alloc));
  }

  /** With every RNTI of `top` at least 0, the map below 0 is `base`. */
  lemma ReplacedNone(base: map<int, DlUe>, top: map<int, DlUe>)
    requires forall x :: x in top ==> x >= 0
    ensures Replaced(base, top, 0) == base
  {
  }

  /** With every RNTI of `top` at least 0, the overlay below 0 is `base`. */
  lemma OverlayNone(base: map<FlowId, RlcReport>, top: map<FlowId, RlcReport>)
    requires forall f :: f in top ==> f.rnti >= 0
    ensures Overlay(base, top, 0) == base
  {
  }

  /** Past an RNTI with nothing allocated, the state is as it was. */
  lemma StateBelowSkip(c: Cell, s: DlState, alloc: map<int, seq<nat>>, n: nat)
    requires CellOk(c) && StateOk(c, s) && AllocsOk(c, s, alloc) && n !in alloc
    ensures StateBelow(c, s, alloc, n + 1) == StateBelow(c, s, alloc, n)
  {
    FlowsBelowNext(c, s, alloc, n);
    UesBelowNext(c, s, alloc, n);
    ReportsBelowNext(c, s, alloc, n);
    UeUlBelowNext(c, s, alloc, n);
  }

  /**
   * The step of the DCI walk for the allocated RNTI `w`: its flow counts
   * the bytes of its blocks, its HARQ record takes the process and keeps
   * the transmission, every active channel of it is drained by its PDUs
   * and its power record takes the TPC command; nothing else changes.
   */
  function Served(c: Cell, s: DlState, alloc: map<int, seq<nat>>, w: int, st: DlState): (r: DlState)
    requires CellOk(c) && StateOk(c, s) && AllocsOk(c, s, alloc) && w in alloc
  {
    DlState(st.flows[w := s.flows[w].(lastTtiBytes := Sum(DciTbs(c, w, alloc[w])))],
            st.ues[w := UeAfter(c, s, w, alloc[w])],
            ServedReports(c, s, alloc, w, st.reports),
            st.ueUl[w := PowerAfter(c, s, w)])
  }

  /** The reports once the active channels of `w` are drained by their PDUs. */
  function ServedReports(c: Cell, s: DlState, alloc: map<int, seq<nat>>, w: int, reports: map<FlowId, RlcReport>):
    (r: map<FlowId, RlcReport>)
    requires CellOk(c) && StateOk(c, s) && AllocsOk(c, s, alloc) && w in alloc
  {
    var top := AllDrained(c, s, alloc);
    map f | f in reports :: if f.rnti == w && f in top then top[f] else reports[f]
  }

  /**
   * The DCI walk over `allocationMap`, in increasing RNTI order, from the
   * state `s` after the TTI reset: the state and the transmissions it
   * leaves are those of the stage as module DlPf defines it.
   */
  method DciStage(c: Cell, s: DlState, alloc: map<int, seq<nat>>) returns (st: DlState, d: seq<NewData>)
    requires CellOk(c) && StateOk(c, s) && AllocsOk(c, s, alloc)
    ensures st == StateBelow(c, s, alloc, RNTI_LIMIT)
    ensures d == NewDataBelow(c, s, alloc, RNTI_LIMIT)
  {
    st, d := s, [];
    StateBelowNone(c, s, alloc);
    NewDataBelowNext(c, s, alloc, 0);
    for r := 0 to RNTI_LIMIT
      invariant st == StateBelow(c, s, alloc, r)
      invariant d == NewDataBelow(c, s, alloc, r)
    {
      NewDataBelowNext(c, s, alloc, r);
      if r in alloc {
        StateBelowNext(c, s, alloc, r);
        d := d + [NewDataFor(c, s, r, alloc[r])];
        st := Served(c, s, alloc, r, st);
      } else {
        StateBelowSkip(c, s, alloc, r);
      }
    }
  }

  /**
   * The new-data part of the TTI as the scheduler runs it: with every RBG
   * taken by retransmissions it returns at once; otherwise the RBG pass,
   * the reset of the TTI bytes, the DCI walk and the statistics update.
   */
  method NewDataStep(c: Cell, s: DlState, ffr: (int, int) -> bool, served: set<int>, m0: seq<bool>, allocNum: int)
    returns (st: DlState, d: seq<NewData>, rbgMap: seq<bool>)
    requires TtiOk(c, s, m0)
    ensures (st, d, rbgMap) == NewDataTti(c, s, ffr, served, m0, allocNum)
  {
    if allocNum == c.rbgNum {
      return s, [], m0;
    }
    var alloc;
    rbgMap, alloc := RbgPass(c, s, ffr, served, m0);
    PfAllocsOk(c, s, ffr, served, m0);
    var s1 := s.(flows := ResetTti(s.flows));
    st, d := DciStage(c, s1, alloc);
    UpdateStatsOk(c, st);
    st := st.(flows := UpdateStats(st.flows));
  }
}
