/**
 * The downlink HARQ feedback pass of `DoSchedDlTriggerReq`
 * (`pw-ff-mac-scheduler.cc`): feedback kept from earlier TTIs and the
 * feedback just received are walked in order; an ACK frees its process, a
 * NACK either drops the process after its third retransmission or
 * schedules a retransmission, on the RBGs it used before when they are all
 * still free and otherwise on as many free RBGs found circularly after the
 * last of them.
 */
module DlRetx {
  import opened RbgBitmap
  import opened DlHarq

  /**
   * `BuildDataListElement_s` as far as this model follows it: the RNTI and the
   * DCI sent. The RLC PDU lists attached to it are not part of this model.
   */
  datatype BuildData = BuildData(rnti: int, dci: DlDci)

  /**
   * The list the feedback pass walks: feedback kept from earlier TTIs
   * followed by the feedback just received, or nothing when HARQ is off.
   */
  function MergeFeedback(buffered: seq<DlInfo>, received: seq<DlInfo>, harqOn: bool): (r: seq<DlInfo>)
    ensures harqOn ==> r == buffered + received
    ensures !harqOn ==> r == []
  {
    var merged :=
      if |buffered| > 0 then (if |received| > 0 then buffered + received else buffered)
      else if |received| > 0 then received
      else buffered;
    if harqOn then merged else []
  }

  /**
   * Whether each of the two layers asks for a retransmission: a layer
   * does when its status is NACK, and layer 1 never does when only one
   * status came back.
   */
  function RetxFlags(st: seq<HarqStatus>): (r: seq<bool>)
    requires 1 <= |st| <= NUM_LAYERS
    ensures |r| == NUM_LAYERS
    ensures forall j :: 0 <= j < |st| ==> (r[j] <==> st[j] == Nack)
    ensures |st| == 1 ==> !r[1]
  {
    if |st| == 1 then [st[0] == Nack, false] else [st[0] == Nack, st[1] == Nack]
  }

  /** The redundancy version of a retransmission: the larger of the first two layers' versions. */
  function MaxRv(d: DlDci): (r: int)
    requires |d.rv| >= 1
    ensures r == d.rv[0] || (|d.rv| > 1 && r == d.rv[1])
    ensures r >= d.rv[0] && (|d.rv| > 1 ==> r >= d.rv[1])
  {
    if |d.rv| == 1 then d.rv[0] else if d.rv[0] > d.rv[1] then d.rv[0] else d.rv[1]
  }

  /** A DCI carries as many NDIs as RVs, MCSs and TB sizes. */
  predicate LayersAligned(d: DlDci)
  {
    |d.ndi| == |d.rv| == |d.mcs| == |d.tbsSize|
  }

  /** Stored redundancy versions are 8-bit and never above the fourth transmission's 3. */
  predicate RvOk(d: DlDci)
  {
    forall k :: 0 <= k < |d.rv| ==> 0 <= d.rv[k] <= 3
  }

  /**
   * The update of layer `j` of the DCI that is retransmitted: a
   * retransmitted layer gets NDI 0 and the next RV, or zeros appended when
   * the DCI has no entry for it yet (a MIMO transition); a layer without
   * retransmission gets an empty transport block.
   */
  function RetxLayer(d: DlDci, j: nat, retx: bool): (r: DlDci)
    requires LayersAligned(d) && (!retx ==> j < |d.ndi|)
    ensures LayersAligned(r)
    ensures |r.ndi| == (if j < |d.ndi| then |d.ndi| else |d.ndi| + 1)
  {
    if retx then
      if j >= |d.ndi| then d.(ndi := d.ndi + [0], rv := d.rv + [0], mcs := d.mcs + [0], tbsSize := d.tbsSize + [0])
      else d.(ndi := d.ndi[j := 0], rv := d.rv[j := d.rv[j] + 1])
    else d.(ndi := d.ndi[j := 0], rv := d.rv[j := 0], mcs := d.mcs[j := 0], tbsSize := d.tbsSize[j := 0])
  }

  /** Every layer without a retransmission already has an entry in the DCI. */
  predicate LayersFit(d: DlDci, retx: seq<bool>, n: nat)
    requires n <= |retx|
  {
    forall j :: 0 <= j < n ==> !retx[j] ==> j < |d.ndi|
  }

  /** Layers `0 .. n-1` updated in turn. */
  function RetxLayers(d: DlDci, retx: seq<bool>, n: nat): (r: DlDci)
    requires LayersAligned(d) && n <= |retx| && LayersFit(d, retx, n)
    ensures LayersAligned(r)
    ensures |d.ndi| <= |r.ndi| <= (if n <= |d.ndi| then |d.ndi| else n)
  {
    if n == 0 then d else RetxLayer(RetxLayers(d, retx, n - 1), n - 1, retx[n - 1])
  }

  /**
   * The layer loop of a retransmission: each layer in turn, as
   * `RetxLayers` states.
   */
  method ApplyRetxLayers(d0: DlDci, retx: seq<bool>, n: nat) returns (d: DlDci)
    requires LayersAligned(d0) && n <= |retx| && LayersFit(d0, retx, n)
    ensures d == RetxLayers(d0, retx, n)
  {
    d := d0;
    for j := 0 to n
      invariant d == RetxLayers(d0, retx, j)
    {
      if retx[j] {
        if j >= |d.ndi| {
          d := d.(ndi := d.ndi + [0], rv := d.rv + [0], mcs := d.mcs + [0], tbsSize := d.tbsSize + [0]);
        } else {
          d := d.(ndi := d.ndi[j := 0], rv := d.rv[j := d.rv[j] + 1]);
        }
      } else {
        d := d.(ndi := d.ndi[j := 0], rv := d.rv[j := 0], mcs := d.mcs[j := 0], tbsSize := d.tbsSize[j := 0]);
      }
    }
  }

  /**
   * What the layer update does, layer by layer, for the one or two layers
   * of a feedback: a retransmitted layer that the DCI carries keeps its
   * MCS and TB size and gets NDI 0 and its RV plus one; a retransmitted
   * layer the DCI does not carry gets zeros; any other layer gets an empty
   * transport block. The RBG bitmap, RNTI, process and TPC do not change.
   */
  lemma {:induction false} RetxLayersEffect(d: DlDci, retx: seq<bool>, n: nat, j: nat)
    requires LayersAligned(d) && n <= |retx| && LayersFit(d, retx, n) && n <= NUM_LAYERS && j < n
    ensures var r := RetxLayers(d, retx, n);
      j < |r.ndi| && r.rbBitmap == d.rbBitmap && r.rnti == d.rnti && r.harqProcess == d.harqProcess && r.tpc == d.tpc &&
      (retx[j] && j < |d.ndi| ==> r.ndi[j] == 0 && r.rv[j] == d.rv[j] + 1 && r.mcs[j] == d.mcs[j] && r.tbsSize[j] == d.tbsSize[j]) &&
      (retx[j] && j >= |d.ndi| ==> r.ndi[j] == 0 && r.rv[j] == 0 && r.mcs[j] == 0 && r.tbsSize[j] == 0) &&
      (!retx[j] ==> r.ndi[j] == 0 && r.rv[j] == 0 && r.mcs[j] == 0 && r.tbsSize[j] == 0)
  {
    assert RetxLayers(d, retx, 0) == d;
    var r1 := RetxLayers(d, retx, 1);
    assert r1 == RetxLayer(d, 0, retx[0]);
    if n == 2 {
      assert RetxLayers(d, retx, 2) == RetxLayer(r1, 1, retx[1]);
      if j == 0 {
        assert |r1.ndi| >= 1;
      } else {
        assert |r1.ndi| == (if |d.ndi| >= 1 then |d.ndi| else 1);
      }
    }
  }

  /** Layers not touched by the update keep their RV, and an RV at most 2 ends at most 3. */
  lemma {:induction false} RetxLayersRvOk(d: DlDci, retx: seq<bool>, n: nat)
    requires LayersAligned(d) && n <= |retx| && LayersFit(d, retx, n) && n <= NUM_LAYERS
    requires RvOk(d) && |d.rv| >= 1 && MaxRv(d) < 3
    ensures RvOk(RetxLayers(d, retx, n))
  {
    if n >= 1 {
      assert RetxLayers(d, retx, 0) == d;
      var r1 := RetxLayers(d, retx, 1);
      assert r1 == RetxLayer(d, 0, retx[0]);
      assert RvOk(r1);
      if n == 2 {
        assert RetxLayers(d, retx, 2) == RetxLayer(r1, 1, retx[1]);
        assert |r1.rv| >= 2 ==> r1.rv[1] == d.rv[1];
      }
    }
  }

  /** Every listed RBG is still free in the map. */
  predicate AllFree(m: seq<bool>, rbgs: seq<nat>)
    requires AllBelow(rbgs, |m|)
  {
    forall k :: 0 <= k < |rbgs| ==> !m[rbgs[k]]
  }

  /** The map once the listed RBGs are marked used. */
  function MarkAll(m: seq<bool>, rbgs: seq<nat>): seq<bool>
  {
    seq(|m|, i requires 0 <= i < |m| => m[i] || i in rbgs)
  }

  /** The number of RBGs marked used. */
  function CountTrue(m: seq<bool>): nat
  {
    if m == [] then 0 else CountTrue(m[..|m| - 1]) + (if m[|m| - 1] then 1 else 0)
  }

  lemma {:induction false} CountTrueMark(m: seq<bool>, k: nat)
    requires k < |m| && !m[k]
    ensures CountTrue(m[k := true]) == CountTrue(m) + 1
  {
    var n := |m|;
    if k < n - 1 {
      assert m[k := true][..n - 1] == m[..n - 1][k := true];
      CountTrueMark(m[..n - 1], k);
    } else {
      assert m[k := true][..n - 1] == m[..n - 1];
    }
  }

  /**
   * Marking distinct free RBGs adds exactly their number to the count of
   * used RBGs: the scheduler's `rbgAllocatedNum`, raised by one per RBG
   * marked, keeps counting the used RBGs.
   */
  lemma {:induction false} CountTrueMarkAll(m: seq<bool>, rbgs: seq<nat>)
    requires AllBelow(rbgs, |m|) && Distinct(rbgs) && AllFree(m, rbgs)
    ensures |MarkAll(m, rbgs)| == |m|
    ensures CountTrue(MarkAll(m, rbgs)) == CountTrue(m) + |rbgs|
  {
    if rbgs == [] {
      assert MarkAll(m, rbgs) == m;
    } else {
      var init := rbgs[..|rbgs| - 1];
      var k := rbgs[|rbgs| - 1];
      assert rbgs == init + [k];
      CountTrueMarkAll(m, init);
      assert k !in init by {
        forall i | 0 <= i < |init|
          ensures init[i] != k
        {
          assert init[i] == rbgs[i];
        }
      }
      assert MarkAll(m, rbgs) == MarkAll(m, init)[k := true];
      CountTrueMark(MarkAll(m, init), k);
    }
  }

  /**
   * The check of the original RBGs: free when none of them is used. The
   * loop stops at the first used one.
   */
  method CheckFree(m: seq<bool>, rbgs: seq<nat>) returns (free: bool)
    requires AllBelow(rbgs, |m|)
    ensures free <==> AllFree(m, rbgs)
  {
    free := true;
    var j := 0;
    while j < |rbgs|
      invariant 0 <= j <= |rbgs|
      invariant forall k :: 0 <= k < j ==> !m[rbgs[k]]
    {
      if m[rbgs[j]] {
        free := false;
        break;
      }
      j := j + 1;
    }
  }

  /** Marking the original RBGs one by one, as the reuse branch does. */
  method MarkRbgs(m0: seq<bool>, rbgs: seq<nat>) returns (m: seq<bool>)
    requires AllBelow(rbgs, |m0|)
    ensures m == MarkAll(m0, rbgs)
  {
    m := m0;
    for j := 0 to |rbgs|
      invariant m == MarkAll(m0, rbgs[..j])
    {
      assert rbgs[..j + 1] == rbgs[..j] + [rbgs[j]];
      m := m[rbgs[j] := true];
    }
    assert rbgs[..|rbgs|] == rbgs;
  }

  /**
   * The RBG `d` steps after `last` in the circular scan over `n` RBGs
   * (`(last + d) % n`, written without the remainder).
   */
  function Pos(last: nat, d: nat, n: nat): nat
  {
    if last + d < n then last + d else last + d - n
  }

  /** How many steps after `last` the scan reaches RBG `x`; `n` for `last` itself. */
  function Steps(last: nat, x: nat, n: nat): int
  {
    if x > last then x - last else x - last + n
  }

  /**
   * The free RBGs among the first `d` the circular scan visits after
   * `last`, in the order visited.
   */
  function FreeAfter(m: seq<bool>, last: nat, d: nat): seq<nat>
    requires last < |m| && d < |m|
  {
    if d == 0 then []
    else FreeAfter(m, last, d - 1) + (if !m[Pos(last, d, |m|)] then [Pos(last, d, |m|)] else [])
  }

  /** `FreeAfter` lists free RBGs of the map, other than `last`. */
  lemma {:induction false} FreeAfterFree(m: seq<bool>, last: nat, d: nat)
    requires last < |m| && d < |m|
    ensures var f := FreeAfter(m, last, d);
      AllBelow(f, |m|) && AllFree(m, f) && forall k :: 0 <= k < |f| ==> f[k] != last
  {
    if d > 0 {
      FreeAfterFree(m, last, d - 1);
    }
  }

  /** `FreeAfter` lists RBGs in the order of the scan, so each at most once. */
  lemma {:induction false} FreeAfterOrdered(m: seq<bool>, last: nat, d: nat)
    requires last < |m| && d < |m|
    ensures forall k :: 0 <= k < |FreeAfter(m, last, d)| ==> 1 <= Steps(last, FreeAfter(m, last, d)[k], |m|) <= d
    ensures forall i, k :: 0 <= i < k < |FreeAfter(m, last, d)| ==>
              Steps(last, FreeAfter(m, last, d)[i], |m|) < Steps(last, FreeAfter(m, last, d)[k], |m|)
  {
    if d > 0 {
      FreeAfterOrdered(m, last, d - 1);
      var prev := FreeAfter(m, last, d - 1);
      var f := FreeAfter(m, last, d);
      assert Steps(last, Pos(last, d, |m|), |m|) == d;
      assert forall k :: 0 <= k < |prev| ==> f[k] == prev[k];
      assert forall k :: |prev| <= k < |f| ==> f[k] == Pos(last, d, |m|);
    }
  }

  /** Every free RBG other than `last` within `d` steps is listed. */
  lemma {:induction false} FreeAfterComplete(m: seq<bool>, last: nat, d: nat, x: nat)
    requires last < |m| && d < |m|
    requires x < |m| && x != last && !m[x] && Steps(last, x, |m|) <= d
    ensures x in FreeAfter(m, last, d)
  {
    if Steps(last, x, |m|) == d {
      assert Pos(last, d, |m|) == x;
    } else {
      FreeAfterComplete(m, last, d - 1, x);
    }
  }

  /**
   * `FreeAfter` lists exactly the free RBGs other than `last` within `d`
   * steps of it, each once, in the order of the scan.
   */
  lemma FreeAfterSpec(m: seq<bool>, last: nat, d: nat)
    requires last < |m| && d < |m|
    ensures var f := FreeAfter(m, last, d);
      AllBelow(f, |m|) && Distinct(f) && AllFree(m, f) &&
      (forall i, k :: 0 <= i < k < |f| ==> Steps(last, f[i], |m|) < Steps(last, f[k], |m|)) &&
      (forall x: nat :: x in f <==> x < |m| && x != last && !m[x] && Steps(last, x, |m|) <= d)
  {
    FreeAfterFree(m, last, d);
    FreeAfterOrdered(m, last, d);
    var f := FreeAfter(m, last, d);
    forall x: nat | x < |m| && x != last && !m[x] && Steps(last, x, |m|) <= d
      ensures x in f
    {
      FreeAfterComplete(m, last, d, x);
    }
  }

  /** The next RBG of the scan is not yet listed. */
  lemma FreeAfterNext(m: seq<bool>, last: nat, d: nat)
    requires last < |m| && d + 1 < |m|
    ensures Pos(last, d + 1, |m|) !in FreeAfter(m, last, d)
  {
    FreeAfterOrdered(m, last, d);
    assert Steps(last, Pos(last, d + 1, |m|), |m|) == d + 1;
  }

  lemma MarkAllSnoc(m: seq<bool>, rbgs: seq<nat>, x: nat)
    requires x < |m|
    ensures MarkAll(m, rbgs + [x]) == MarkAll(m, rbgs)[x := true]
  {
  }

  /** A shorter scan lists a prefix of what a longer one lists. */
  lemma {:induction false} FreeAfterPrefix(m: seq<bool>, last: nat, d: nat, e: nat)
    requires last < |m| && d <= e < |m|
    ensures |FreeAfter(m, last, d)| <= |FreeAfter(m, last, e)|
    ensures FreeAfter(m, last, e)[..|FreeAfter(m, last, d)|] == FreeAfter(m, last, d)
    decreases e - d
  {
    if d < e {
      FreeAfterPrefix(m, last, d, e - 1);
      var a := FreeAfter(m, last, d);
      var b := FreeAfter(m, last, e - 1);
      assert FreeAfter(m, last, e)[..|b|] == b;
      assert FreeAfter(m, last, e)[..|a|] == b[..|a|];
    }
  }

  lemma ModStep(x: nat, n: nat)
    requires x < n
    ensures (x + 1) % n == if x + 1 < n then x + 1 else 0
  {
  }

  /**
   * The search for a moved retransmission: starting after the last
   * original RBG `last` and going round, take each free RBG (marking it in
   * a copy of the map) until `count` are found or the scan is back at
   * `last`, which itself is never examined. `found` says whether enough free
   * RBGs exist anywhere else; when they do, `rbgs` are the first `count` of
   * them in scan order and `copy` is the map with them marked.
   */
  method CircularSearch(m: seq<bool>, last: nat, count: nat) returns (found: bool, rbgs: seq<nat>, copy: seq<bool>)
    requires last < |m| < 256
    ensures found <==> count <= |FreeAfter(m, last, |m| - 1)|
    ensures found ==> rbgs == FreeAfter(m, last, |m| - 1)[..count] && copy == MarkAll(m, rbgs)
  {
    var n := |m|;
    var j := 0;
    var rbgId := (last + 1) % n;
    ModStep(last, n);
    ghost var d := 1;
    copy := m;
    rbgs := [];
    while j < count && last != rbgId
      invariant 1 <= d <= n
      invariant rbgId == (if d == n then last else Pos(last, d, n))
      invariant rbgs == FreeAfter(m, last, d - 1) && j == |rbgs| <= count
      invariant copy == MarkAll(m, rbgs)
      decreases n - d
    {
      assert rbgId == Pos(last, d, n);
      assert FreeAfter(m, last, d) == FreeAfter(m, last, d - 1) + (if !m[rbgId] then [rbgId] else []);
      FreeAfterNext(m, last, d - 1);
      assert copy[rbgId] == m[rbgId];
      MarkAllSnoc(m, rbgs, rbgId);
      if !copy[rbgId] {
        copy := copy[rbgId := true];
        rbgs := rbgs + [rbgId];
        j := j + 1;
      }
      ModStep(rbgId, n);
      rbgId := (rbgId + 1) % n;
      d := d + 1;
    }
    FreeAfterPrefix(m, last, d - 1, n - 1);
    found := j == count;
  }

  /** The RBGs of a bitmap below `2^n` are below `n`, ascending and distinct. */
  lemma RbgsInRange(bm: nat, n: nat)
    requires bm < Pow2(n)
    ensures AllBelow(RbgsBelow(bm, BITMAP_BITS), n)
    ensures Increasing(RbgsBelow(bm, BITMAP_BITS)) && Distinct(RbgsBelow(bm, BITMAP_BITS))
  {
    var r := RbgsBelow(bm, BITMAP_BITS);
    RbgsBelowSpec(bm, BITMAP_BITS);
    forall k | 0 <= k < |r|
      ensures r[k] < n
    {
      assert r[k] in r;
      if r[k] >= n {
        BitBelow(bm, n, r[k]);
      }
    }
  }

  /**
   * The scheduler's local state during the feedback pass, together with
   * the HARQ records it updates: the RBG map, the RNTIs given a
   * retransmission, the feedback kept for the next TTI, the data elements
   * built and `rbgAllocatedNum`.
   */
  datatype Pass = Pass(ues: map<int, DlUe>, rbgMap: seq<bool>, served: set<int>, untxed: seq<DlInfo>,
                       built: seq<BuildData>, allocNum: int)

  predicate AnyNack(info: DlInfo)
    requires 1 <= |info.harqStatus| <= NUM_LAYERS
  {
    RetxFlags(info.harqStatus)[0] || RetxFlags(info.harqStatus)[1]
  }

  /**
   * What the retransmission of a stored DCI reads without failing: at
   * least one RV, aligned layers, and unless the process is dropped, RBGs
   * inside the cell and an entry for every layer that is not retransmitted.
   */
  predicate DciFits(d: DlDci, st: seq<HarqStatus>, nRbg: nat)
    requires 1 <= |st| <= NUM_LAYERS
  {
    |d.rv| >= 1 && LayersAligned(d) &&
    (MaxRv(d) != 3 ==> d.rbBitmap < Pow2(nRbg) && LayersFit(d, RetxFlags(st), |st|))
  }

  /**
   * A feedback the pass can handle: its RNTI has HARQ records, its process
   * id is below 8, it carries one or two statuses, and the DCI a NACK
   * refers to fits.
   */
  predicate ItemOk(ues: map<int, DlUe>, info: DlInfo, nRbg: nat)
  {
    info.rnti in ues && 0 <= info.harqProcessId < HARQ_PROC_NUM && 1 <= |info.harqStatus| <= NUM_LAYERS &&
    (AnyNack(info) ==> |ues[info.rnti].dci| == HARQ_PROC_NUM && DciFits(ues[info.rnti].dci[info.harqProcessId], info.harqStatus, nRbg))
  }

  predicate StepOk(p: Pass, info: DlInfo)
  {
    |p.rbgMap| <= BITMAP_BITS && UesOk(p.ues) && (info.rnti !in p.served ==> ItemOk(p.ues, info, |p.rbgMap|))
  }

  /** A process freed after an ACK or a dropped retransmission: idle, with empty PDU lists on both layers. */
  function Freed(u: DlUe, h: int): DlUe
    requires UeOk(u) && 0 <= h < HARQ_PROC_NUM
  {
    u.(status := u.status[h := 0], pdus := seq(NUM_LAYERS, l requires 0 <= l < NUM_LAYERS => u.pdus[l][h := []]))
  }

  /**
   * A retransmission sent with DCI `sent`: the stored DCI takes its RVs,
   * the process timer restarts, the data element is added and the RNTI is
   * marked as served.
   */
  function Emit(p: Pass, info: DlInfo, sent: DlDci): Pass
    requires info.rnti in p.ues && UeOk(p.ues[info.rnti]) && 0 <= info.harqProcessId < HARQ_PROC_NUM
  {
    var u := p.ues[info.rnti];
    var h := info.harqProcessId;
    p.(ues := p.ues[info.rnti := u.(dci := u.dci[h := u.dci[h].(rv := sent.rv)], timers := u.timers[h := 0])],
       built := p.built + [BuildData(info.rnti, sent)],
       served := p.served + {info.rnti})
  }

  /**
   * One feedback of the pass. The source aborts on a feedback outside
   * `StepOk`; the model leaves the state unchanged there.
   */
  function Step(p: Pass, info: DlInfo): Pass
  {
    if !StepOk(p, info) || info.rnti in p.served then p
    else if !AnyNack(info) || MaxRv(p.ues[info.rnti].dci[info.harqProcessId]) == 3 then FreeStep(p, info)
    else RetxStep(p, info)
  }

  /** An ACK, or a NACK after the third retransmission: the process is freed and nothing is sent. */
  function FreeStep(p: Pass, info: DlInfo): Pass
    requires StepOk(p, info) && info.rnti !in p.served
  {
    p.(ues := p.ues[info.rnti := Freed(p.ues[info.rnti], info.harqProcessId)])
  }

  /** The DCI of the process a NACK is about. */
  function NackDci(p: Pass, info: DlInfo): DlDci
    requires StepOk(p, info) && info.rnti !in p.served
  {
    p.ues[info.rnti].dci[info.harqProcessId]
  }

  predicate RetxOk(p: Pass, info: DlInfo)
  {
    StepOk(p, info) && info.rnti !in p.served && AnyNack(info) && MaxRv(NackDci(p, info)) != 3
  }

  /** The RBGs the NACKed transmission used. */
  function OldRbgs(p: Pass, info: DlInfo): (r: seq<nat>)
    requires RetxOk(p, info)
    ensures AllBelow(r, |p.rbgMap|) && Increasing(r) && Distinct(r)
  {
    RbgsInRange(NackDci(p, info).rbBitmap, |p.rbgMap|);
    RbgsBelow(NackDci(p, info).rbBitmap, BITMAP_BITS)
  }

  /**
   * Where a retransmission goes: the map with its RBGs marked, the bitmap
   * it is sent with, how many RBGs that added, and whether the feedback is
   * also kept for the next TTI.
   */
  datatype Placement = Placement(rbgMap: seq<bool>, bitmap: nat, added: nat, kept: bool)

  /**
   * The RBG choice of a retransmission whose original RBGs are `rbgs`: all
   * of them when all are free; otherwise the first `|rbgs|` free RBGs the
   * circular scan meets after the last of them, when there are that many;
   * otherwise nothing is marked and the original bitmap is kept.
   */
  function Place(m: seq<bool>, rbgs: seq<nat>, bitmap: nat): Placement
    requires AllBelow(rbgs, |m|)
  {
    if AllFree(m, rbgs) then Placement(MarkAll(m, rbgs), bitmap, |rbgs|, false)
    else
      var cand := FreeAfter(m, rbgs[|rbgs| - 1], |m| - 1);
      if |rbgs| <= |cand| then Placement(MarkAll(m, cand[..|rbgs|]), Mask(cand[..|rbgs|]), |rbgs|, false)
      else Placement(m, bitmap, 0, true)
  }

  /**
   * A NACK that is retransmitted: the RBGs are chosen by `Place`, the
   * layers are updated and the DCI is sent; a feedback that found no room
   * is kept for the next TTI and is sent all the same.
   */
  function RetxStep(p: Pass, info: DlInfo): Pass
    requires RetxOk(p, info)
  {
    var d := NackDci(p, info);
    var pl := Place(p.rbgMap, OldRbgs(p, info), d.rbBitmap);
    Emit(p.(rbgMap := pl.rbgMap, allocNum := p.allocNum + pl.added, untxed := if pl.kept then p.untxed + [info] else p.untxed),
         info, RetxLayers(d.(rbBitmap := pl.bitmap), RetxFlags(info.harqStatus), |info.harqStatus|))
  }

  /** The feedback list processed in order. */
  function PassAll(p: Pass, infos: seq<DlInfo>): Pass
  {
    if infos == [] then p else Step(PassAll(p, infos[..|infos| - 1]), infos[|infos| - 1])
  }

  /**
   * One feedback of the pass, as the source runs it: skip an RNTI already
   * served; free the process on ACK or after the third retransmission;
   * otherwise retransmit.
   */
  method FeedbackStep(p: Pass, info: DlInfo) returns (q: Pass)
    requires StepOk(p, info)
    ensures q == Step(p, info)
  {
    if info.rnti in p.served {
      return p;
    }
    var retx := RetxFlags(info.harqStatus);
    if !(retx[0] || retx[1]) {
      return p.(ues := p.ues[info.rnti := Freed(p.ues[info.rnti], info.harqProcessId)]);
    }
    var rv := MaxRv(p.ues[info.rnti].dci[info.harqProcessId]);
    if rv == 3 {
      return p.(ues := p.ues[info.rnti := Freed(p.ues[info.rnti], info.harqProcessId)]);
    }
    q := Retransmit(p, info);
  }

  /**
   * The RBG choice of a retransmission: reuse the original RBGs when all
   * are free, else search as many free ones circularly after the last of
   * them, else keep the feedback.
   */
  method PlaceRetx(m: seq<bool>, dciRbg: seq<nat>, bitmap: nat) returns (pl: Placement)
    requires AllBelow(dciRbg, |m|) && Distinct(dciRbg) && |m| <= BITMAP_BITS
    ensures pl == Place(m, dciRbg, bitmap)
  {
    var free := CheckFree(m, dciRbg);
    if free {
      var marked := MarkRbgs(m, dciRbg);
      return Placement(marked, bitmap, |dciRbg|, false);
    }
    var last := dciRbg[|dciRbg| - 1];
    var found, newRbgs, copy := CircularSearch(m, last, |dciRbg|);
    if found {
      MovedOk(m, last, |dciRbg|);
      var mask := BuildMask(newRbgs);
      pl := Placement(copy, mask, |newRbgs|, false);
    } else {
      pl := Placement(m, bitmap, 0, true);
    }
  }

  /**
   * A retransmission: decode the DCI's RBGs, place them, update the
   * layers, store the new RVs, restart the timer and send.
   */
  method Retransmit(p: Pass, info: DlInfo) returns (q: Pass)
    requires RetxOk(p, info)
    ensures q == RetxStep(p, info)
  {
    var retx := RetxFlags(info.harqStatus);
    var u := p.ues[info.rnti];
    var h := info.harqProcessId;
    var dci := u.dci[h];
    var dciRbg := DciRbgs(dci.rbBitmap);
    assert dciRbg == OldRbgs(p, info);
    var pl := PlaceRetx(p.rbgMap, dciRbg, dci.rbBitmap);
    var untxed := if pl.kept then p.untxed + [info] else p.untxed;
    var sent := ApplyRetxLayers(dci.(rbBitmap := pl.bitmap), retx, |info.harqStatus|);
    var ues := p.ues[info.rnti := u.(dci := u.dci[h := u.dci[h].(rv := sent.rv)], timers := u.timers[h := 0])];
    q := Pass(ues, pl.rbgMap, p.served + {info.rnti}, untxed, p.built + [BuildData(info.rnti, sent)], p.allocNum + pl.added);
  }

  /** Every stored DCI of every UE has well-formed RVs. */
  predicate AllRvOk(ues: map<int, DlUe>)
  {
    forall r, k :: r in ues && 0 <= k < |ues[r].dci| ==> RvOk(ues[r].dci[k])
  }

  function Rntis(built: seq<BuildData>): set<int>
  {
    set i | 0 <= i < |built| :: built[i].rnti
  }

  /** No RNTI gets two data elements. */
  predicate OncePerRnti(built: seq<BuildData>)
  {
    forall i, j :: 0 <= i < j < |built| ==> built[i].rnti != built[j].rnti
  }

  /**
   * What the pass keeps, relative to the HARQ records `u0` it started
   * from: the records stay well formed for the same RNTIs, with the DCIs
   * of RNTIs not yet served untouched and every stored RV at most 3;
   * `rbgAllocatedNum` counts the used RBGs; and the served RNTIs are
   * those of the data elements, one element each.
   */
  predicate PassInv(u0: map<int, DlUe>, p: Pass, nRbg: nat)
  {
    UesOk(p.ues) && p.ues.Keys == u0.Keys && |p.rbgMap| == nRbg && nRbg <= BITMAP_BITS &&
    p.allocNum == CountTrue(p.rbgMap) &&
    (forall r :: r in u0 && r !in p.served ==> p.ues[r].dci == u0[r].dci) &&
    AllRvOk(p.ues) && p.served == Rntis(p.built) && OncePerRnti(p.built)
  }

  lemma PassInvInit(u0: map<int, DlUe>, m: seq<bool>)
    requires UesOk(u0) && AllRvOk(u0) && |m| <= BITMAP_BITS
    ensures PassInv(u0, Pass(u0, m, {}, [], [], CountTrue(m)), |m|)
  {
  }

  lemma FreedOk(u: DlUe, h: int)
    requires UeOk(u) && 0 <= h < HARQ_PROC_NUM
    ensures UeOk(Freed(u, h)) && Freed(u, h).dci == u.dci
  {
  }

  lemma EmitKeepsInv(u0: map<int, DlUe>, p: Pass, info: DlInfo, sent: DlDci, nRbg: nat)
    requires PassInv(u0, p, nRbg) && info.rnti in p.ues && info.rnti !in p.served
    requires 0 <= info.harqProcessId < HARQ_PROC_NUM && RvOk(sent)
    ensures PassInv(u0, Emit(p, info, sent), nRbg)
  {
    var q := Emit(p, info, sent);
    assert q.built == p.built + [BuildData(info.rnti, sent)];
    assert Rntis(q.built) == Rntis(p.built) + {info.rnti} by {
      forall x | x in Rntis(q.built)
        ensures x in Rntis(p.built) + {info.rnti}
      {
        var i :| 0 <= i < |q.built| && q.built[i].rnti == x;
        if i < |p.built| {
          assert p.built[i].rnti == x;
        }
      }
      forall x | x in Rntis(p.built)
        ensures x in Rntis(q.built)
      {
        var i :| 0 <= i < |p.built| && p.built[i].rnti == x;
        assert q.built[i].rnti == x;
      }
      assert q.built[|p.built|].rnti == info.rnti;
    }
    assert forall i :: 0 <= i < |p.built| ==> p.built[i].rnti in Rntis(p.built);
  }

  /** The moved RBGs are distinct, free and inside the cell, and as many as the original ones. */
  lemma MovedOk(m: seq<bool>, last: nat, count: nat)
    requires last < |m| && count <= |FreeAfter(m, last, |m| - 1)|
    ensures var moved := FreeAfter(m, last, |m| - 1)[..count];
      |moved| == count && AllBelow(moved, |m|) && Distinct(moved) && AllFree(m, moved)
  {
    FreeAfterSpec(m, last, |m| - 1);
  }

  /**
   * Each step keeps `PassInv` for any feedback that fits the records the
   * pass started from, and never meets a feedback the source would abort on.
   */
  lemma StepKeepsInv(u0: map<int, DlUe>, p: Pass, info: DlInfo, nRbg: nat)
    requires PassInv(u0, p, nRbg) && ItemOk(u0, info, nRbg)
    ensures StepOk(p, info) && PassInv(u0, Step(p, info), nRbg)
  {
    if info.rnti in p.served {
      return;
    }
    assert ItemOk(p.ues, info, nRbg);
    if !AnyNack(info) || MaxRv(NackDci(p, info)) == 3 {
      FreedOk(p.ues[info.rnti], info.harqProcessId);
    } else {
      RetxKeepsInv(u0, p, info, nRbg);
    }
  }

  /** A placement marks only free RBGs, and adds exactly as many to the count as it marks. */
  lemma PlaceCount(m: seq<bool>, rbgs: seq<nat>, bitmap: nat)
    requires AllBelow(rbgs, |m|) && Distinct(rbgs)
    ensures var pl := Place(m, rbgs, bitmap);
      |pl.rbgMap| == |m| && CountTrue(pl.rbgMap) == CountTrue(m) + pl.added
  {
    if AllFree(m, rbgs) {
      CountTrueMarkAll(m, rbgs);
    } else {
      var last := rbgs[|rbgs| - 1];
      if |rbgs| <= |FreeAfter(m, last, |m| - 1)| {
        MovedOk(m, last, |rbgs|);
        CountTrueMarkAll(m, FreeAfter(m, last, |m| - 1)[..|rbgs|]);
      }
    }
  }

  lemma RetxKeepsInv(u0: map<int, DlUe>, p: Pass, info: DlInfo, nRbg: nat)
    requires PassInv(u0, p, nRbg) && RetxOk(p, info)
    ensures PassInv(u0, RetxStep(p, info), nRbg)
  {
    var d := NackDci(p, info);
    var pl := Place(p.rbgMap, OldRbgs(p, info), d.rbBitmap);
    assert RvOk(d);
    PlaceCount(p.rbgMap, OldRbgs(p, info), d.rbBitmap);
    RetxLayersRvOk(d.(rbBitmap := pl.bitmap), RetxFlags(info.harqStatus), |info.harqStatus|);
    EmitKeepsInv(u0, p.(rbgMap := pl.rbgMap, allocNum := p.allocNum + pl.added, untxed := if pl.kept then p.untxed + [info] else p.untxed),
                 info, RetxLayers(d.(rbBitmap := pl.bitmap), RetxFlags(info.harqStatus), |info.harqStatus|), nRbg);
  }

  /** The loop of the feedback pass over a list of feedback fitting the records `u0` it starts from. */
  method RunPass(p0: Pass, infos: seq<DlInfo>, ghost u0: map<int, DlUe>) returns (p: Pass)
    requires PassInv(u0, p0, |p0.rbgMap|)
    requires forall i :: 0 <= i < |infos| ==> ItemOk(u0, infos[i], |p0.rbgMap|)
    ensures p == PassAll(p0, infos) && PassInv(u0, p, |p0.rbgMap|)
  {
    p := p0;
    for i := 0 to |infos|
      invariant p == PassAll(p0, infos[..i]) && PassInv(u0, p, |p0.rbgMap|)
    {
      assert infos[..i + 1][..i] == infos[..i];
      StepKeepsInv(u0, p, infos[i], |p0.rbgMap|);
      p := FeedbackStep(p, infos[i]);
    }
    assert infos[..|infos|] == infos;
  }

  /**
   * The feedback pass of `DoSchedDlTriggerReq`: the kept feedback and the
   * feedback received are merged, each is handled in turn on the HARQ
   * records and the RBG map, and the feedback that found no room is kept
   * for the next TTI. Besides following `PassAll`, the pass leaves
   * `rbgAllocatedNum` counting the used RBGs and gives each RNTI at most
   * one retransmission.
   */
  method ProcessDlHarqFeedback(harq: DlHarqProcesses, received: seq<DlInfo>, rbgMap0: seq<bool>, allocNum0: int)
    returns (rbgMap: seq<bool>, served: set<int>, built: seq<BuildData>, allocNum: int)
    requires harq.Valid() && AllRvOk(harq.ues) && |rbgMap0| <= BITMAP_BITS && allocNum0 == CountTrue(rbgMap0)
    requires forall i :: 0 <= i < |MergeFeedback(harq.buffered, received, harq.harqOn)| ==>
               ItemOk(harq.ues, MergeFeedback(harq.buffered, received, harq.harqOn)[i], |rbgMap0|)
    modifies harq
    ensures harq.Valid() && AllRvOk(harq.ues) && harq.ues.Keys == old(harq.ues).Keys
    ensures Pass(harq.ues, rbgMap, served, harq.buffered, built, allocNum) ==
            PassAll(Pass(old(harq.ues), rbgMap0, {}, [], [], allocNum0), MergeFeedback(old(harq.buffered), received, harq.harqOn))
    ensures allocNum == CountTrue(rbgMap) && |rbgMap| == |rbgMap0|
    ensures served == Rntis(built) && OncePerRnti(built)
  {
    var infos := MergeFeedback(harq.buffered, received, harq.harqOn);
    PassInvInit(harq.ues, rbgMap0);
    var p := RunPass(Pass(harq.ues, rbgMap0, {}, [], [], allocNum0), infos, harq.ues);
    harq.ues := p.ues;
    harq.buffered := p.untxed;
    rbgMap, served, built, allocNum := p.rbgMap, p.served, p.built, p.allocNum;
  }
}
