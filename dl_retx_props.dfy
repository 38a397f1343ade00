/**
 * What one step of the downlink HARQ feedback pass does, case by case,
 * and what the whole pass keeps: an ACK or a dropped process frees the
 * process and sends nothing; a retransmission on the original RBGs marks
 * exactly those; a moved retransmission takes as many RBGs as before,
 * each free and the first ones the circular scan meets; a retransmission
 * that found no room is kept and still sent on its original RBGs; and
 * the RBG map only ever gains used RBGs.
 */
module DlRetxProps {
  import opened RbgBitmap
  import opened DlHarq
  import opened DlRetx

  /** The RBGs below `n` whose bit is set in `bm`. */
  function BitSet(bm: nat, n: nat): set<nat>
  {
    set j: nat | j < n && Bit(bm, j)
  }

  function Elems(s: seq<nat>): set<nat>
  {
    set x | x in s
  }

  /** A list without repetitions has as many elements as its set. */
  lemma {:induction false} DistinctCard(s: seq<nat>)
    requires Distinct(s)
    ensures |Elems(s)| == |s|
  {
    if s != [] {
      var init := s[..|s| - 1];
      var x := s[|s| - 1];
      assert Distinct(init);
      DistinctCard(init);
      assert x !in Elems(init) by {
        forall i | 0 <= i < |init|
          ensures init[i] != x
        {
          assert init[i] == s[i];
        }
      }
      assert Elems(s) == Elems(init) + {x} by {
        assert s == init + [x];
      }
    }
  }

  /** The last RBG a NACKed transmission used, where the circular scan starts. */
  function LastOld(p: Pass, info: DlInfo): (r: nat)
    requires RetxOk(p, info) && !AllFree(p.rbgMap, OldRbgs(p, info))
    ensures r < |p.rbgMap| && r in OldRbgs(p, info)
  {
    OldRbgs(p, info)[|OldRbgs(p, info)| - 1]
  }

  /**
   * An RNTI already given a retransmission in this TTI is skipped; any
   * other step keeps the RBG map's length, never frees a used RBG, keeps
   * the RNTIs, and only appends to the served set, the data elements and
   * the kept feedback.
   */
  lemma StepGrows(p: Pass, info: DlInfo)
    ensures info.rnti in p.served ==> Step(p, info) == p
    ensures var q := Step(p, info);
      |q.rbgMap| == |p.rbgMap| && (forall j :: 0 <= j < |p.rbgMap| && p.rbgMap[j] ==> q.rbgMap[j]) &&
      q.ues.Keys == p.ues.Keys && p.served <= q.served &&
      |p.built| <= |q.built| && q.built[..|p.built|] == p.built &&
      |p.untxed| <= |q.untxed| && q.untxed[..|p.untxed|] == p.untxed
  {
    if RetxOk(p, info) {
      var pl := Place(p.rbgMap, OldRbgs(p, info), NackDci(p, info).rbBitmap);
      assert |pl.rbgMap| == |p.rbgMap| && forall j :: 0 <= j < |p.rbgMap| && p.rbgMap[j] ==> pl.rbgMap[j];
    }
  }

  /** The whole pass keeps the map's length and never frees a used RBG; the data elements only grow. */
  lemma {:induction false} PassAllGrows(p: Pass, infos: seq<DlInfo>)
    ensures var q := PassAll(p, infos);
      |q.rbgMap| == |p.rbgMap| && (forall j :: 0 <= j < |p.rbgMap| && p.rbgMap[j] ==> q.rbgMap[j]) &&
      q.ues.Keys == p.ues.Keys && p.served <= q.served &&
      |p.built| <= |q.built| && q.built[..|p.built|] == p.built
  {
    if infos != [] {
      var mid := PassAll(p, infos[..|infos| - 1]);
      PassAllGrows(p, infos[..|infos| - 1]);
      StepGrows(mid, infos[|infos| - 1]);
      var q := PassAll(p, infos);
      assert q == Step(mid, infos[|infos| - 1]);
      assert q.built[..|p.built|] == q.built[..|mid.built|][..|p.built|];
    }
  }

  /**
   * An ACK on every layer, or a NACK on a process whose RV already reached
   * 3: the process becomes idle with empty PDU lists on both layers, its
   * DCI and timer and every other process and UE stay as they were, and
   * nothing is sent, marked or kept.
   */
  lemma StepFreesProcess(p: Pass, info: DlInfo)
    requires StepOk(p, info) && info.rnti !in p.served
    requires !AnyNack(info) || MaxRv(p.ues[info.rnti].dci[info.harqProcessId]) == 3
    ensures var q := Step(p, info); var h := info.harqProcessId;
      info.rnti in q.ues && UeOk(q.ues[info.rnti]) &&
      q.ues[info.rnti].status[h] == 0 && q.ues[info.rnti].pdus[0][h] == [] && q.ues[info.rnti].pdus[1][h] == [] &&
      (forall k :: 0 <= k < HARQ_PROC_NUM && k != h ==>
         q.ues[info.rnti].status[k] == p.ues[info.rnti].status[k] &&
         q.ues[info.rnti].pdus[0][k] == p.ues[info.rnti].pdus[0][k] && q.ues[info.rnti].pdus[1][k] == p.ues[info.rnti].pdus[1][k]) &&
      q.ues[info.rnti].dci == p.ues[info.rnti].dci && q.ues[info.rnti].timers == p.ues[info.rnti].timers &&
      q.ues[info.rnti].currentId == p.ues[info.rnti].currentId &&
      (forall r :: r in p.ues && r != info.rnti ==> r in q.ues && q.ues[r] == p.ues[r]) &&
      q.ues.Keys == p.ues.Keys && q.rbgMap == p.rbgMap && q.served == p.served && q.untxed == p.untxed &&
      q.built == p.built && q.allocNum == p.allocNum
  {
    FreedOk(p.ues[info.rnti], info.harqProcessId);
  }

  /**
   * What a retransmission sends and stores, whatever RBGs it takes: one
   * data element for the RNTI, whose DCI keeps the RNTI, process and TPC
   * of the stored one and has NDI 0 on every layer of the feedback, the
   * stored RV plus one on a NACKed layer it carries and an empty transport
   * block on an ACKed layer; the stored DCI takes the RVs sent, the
   * process timer restarts, and the process stays busy.
   */
  lemma RetxSends(p: Pass, info: DlInfo)
    requires RetxOk(p, info)
    ensures var q := Step(p, info); var h := info.harqProcessId; var d := NackDci(p, info);
      var sent := q.built[|q.built| - 1].dci; var retx := RetxFlags(info.harqStatus);
      |q.built| == |p.built| + 1 && q.built[..|p.built|] == p.built && q.built[|p.built|].rnti == info.rnti &&
      sent.rnti == d.rnti && sent.harqProcess == d.harqProcess && sent.tpc == d.tpc &&
      (forall j :: 0 <= j < |info.harqStatus| ==>
         j < |sent.ndi| && sent.ndi[j] == 0 &&
         (retx[j] && j < |d.ndi| ==> sent.rv[j] == d.rv[j] + 1 && sent.mcs[j] == d.mcs[j] && sent.tbsSize[j] == d.tbsSize[j]) &&
         (!retx[j] ==> sent.rv[j] == 0 && sent.mcs[j] == 0 && sent.tbsSize[j] == 0)) &&
      info.rnti in q.ues && |q.ues[info.rnti].dci| == HARQ_PROC_NUM && |q.ues[info.rnti].timers| == HARQ_PROC_NUM &&
      q.ues[info.rnti].dci[h] == d.(rv := sent.rv) && q.ues[info.rnti].timers[h] == 0 &&
      q.ues[info.rnti].status == p.ues[info.rnti].status && q.ues[info.rnti].pdus == p.ues[info.rnti].pdus &&
      (forall k :: 0 <= k < HARQ_PROC_NUM && k != h ==>
         q.ues[info.rnti].dci[k] == p.ues[info.rnti].dci[k] && q.ues[info.rnti].timers[k] == p.ues[info.rnti].timers[k]) &&
      (forall r :: r in p.ues && r != info.rnti ==> r in q.ues && q.ues[r] == p.ues[r]) &&
      q.served == p.served + {info.rnti}
  {
    var d := NackDci(p, info);
    var pl := Place(p.rbgMap, OldRbgs(p, info), d.rbBitmap);
    var retx := RetxFlags(info.harqStatus);
    var sent := RetxLayers(d.(rbBitmap := pl.bitmap), retx, |info.harqStatus|);
    assert Step(p, info).built[|p.built|].dci == sent;
    forall j | 0 <= j < |info.harqStatus|
      ensures j < |sent.ndi| && sent.ndi[j] == 0 &&
        (retx[j] && j < |d.ndi| ==> sent.rv[j] == d.rv[j] + 1 && sent.mcs[j] == d.mcs[j] && sent.tbsSize[j] == d.tbsSize[j]) &&
        (!retx[j] ==> sent.rv[j] == 0 && sent.mcs[j] == 0 && sent.tbsSize[j] == 0)
    {
      RetxLayersEffect(d.(rbBitmap := pl.bitmap), retx, |info.harqStatus|, j);
    }
    RetxLayersEffect(d.(rbBitmap := pl.bitmap), retx, |info.harqStatus|, 0);
  }

  /**
   * A retransmission's step in terms of the RBG choice: the map, the
   * count and the kept feedback are those `Place` gives, and the one data
   * element added carries the bitmap it chose.
   */
  lemma StepPlaced(p: Pass, info: DlInfo)
    requires RetxOk(p, info)
    ensures var q := Step(p, info); var pl := Place(p.rbgMap, OldRbgs(p, info), NackDci(p, info).rbBitmap);
      q.rbgMap == pl.rbgMap && q.allocNum == p.allocNum + pl.added &&
      q.untxed == (if pl.kept then p.untxed + [info] else p.untxed) &&
      |q.built| == |p.built| + 1 && q.built[|p.built|].dci.rbBitmap == pl.bitmap && info.rnti in q.served
  {
    var d := NackDci(p, info);
    var pl := Place(p.rbgMap, OldRbgs(p, info), d.rbBitmap);
    RetxLayersEffect(d.(rbBitmap := pl.bitmap), RetxFlags(info.harqStatus), |info.harqStatus|, 0);
  }

  /** The RBGs of a NACKed transmission are the set bits of its bitmap, as many as it has bits. */
  lemma OldRbgsBits(p: Pass, info: DlInfo)
    requires RetxOk(p, info)
    ensures forall j: nat :: j in OldRbgs(p, info) <==> j < |p.rbgMap| && Bit(NackDci(p, info).rbBitmap, j)
    ensures |BitSet(NackDci(p, info).rbBitmap, BITMAP_BITS)| == |OldRbgs(p, info)|
  {
    var bm := NackDci(p, info).rbBitmap;
    RbgsBelowSpec(bm, BITMAP_BITS);
    forall j: nat | j < BITMAP_BITS && j >= |p.rbgMap|
      ensures !Bit(bm, j)
    {
      BitBelow(bm, |p.rbgMap|, j);
    }
    assert BitSet(bm, BITMAP_BITS) == Elems(OldRbgs(p, info));
    DistinctCard(OldRbgs(p, info));
  }

  /**
   * Original RBGs all free: the retransmission is sent with the original
   * bitmap, whose RBGs were free; exactly they are marked and counted, and
   * nothing is kept.
   */
  lemma RetxReuse(p: Pass, info: DlInfo)
    requires RetxOk(p, info) && AllFree(p.rbgMap, OldRbgs(p, info))
    ensures var q := Step(p, info); var bm := NackDci(p, info).rbBitmap;
      |q.built| == |p.built| + 1 && q.built[|p.built|].dci.rbBitmap == bm &&
      (forall j: nat :: Bit(bm, j) ==> j < |p.rbgMap| && !p.rbgMap[j]) &&
      |q.rbgMap| == |p.rbgMap| && (forall j :: 0 <= j < |p.rbgMap| ==> q.rbgMap[j] == (p.rbgMap[j] || Bit(bm, j))) &&
      q.allocNum == p.allocNum + |BitSet(bm, BITMAP_BITS)| && q.untxed == p.untxed
  {
    var orig := OldRbgs(p, info);
    var bm := NackDci(p, info).rbBitmap;
    OldRbgsBits(p, info);
    StepPlaced(p, info);
    forall j: nat | Bit(bm, j)
      ensures j < |p.rbgMap| && !p.rbgMap[j]
    {
      if j >= |p.rbgMap| {
        BitBelow(bm, |p.rbgMap|, j);
      }
      assert j in orig;
      var k :| 0 <= k < |orig| && orig[k] == j;
    }
  }

  /** The first `n` free RBGs the circular scan after `last` meets. */
  function Moved(m: seq<bool>, last: nat, n: nat): seq<nat>
    requires last < |m| && n <= |FreeAfter(m, last, |m| - 1)|
  {
    FreeAfter(m, last, |m| - 1)[..n]
  }

  /** The bitmap of the moved RBGs has exactly their bits, as many as were asked for. */
  lemma MovedBits(m: seq<bool>, last: nat, n: nat)
    requires |m| <= BITMAP_BITS && last < |m| && n <= |FreeAfter(m, last, |m| - 1)|
    ensures forall j :: Bit(Mask(Moved(m, last, n)), j) <==> j in Moved(m, last, n)
    ensures |BitSet(Mask(Moved(m, last, n)), BITMAP_BITS)| == n
  {
    var c := Moved(m, last, n);
    MovedOk(m, last, n);
    MaskBits(c, |m|);
    assert BitSet(Mask(c), BITMAP_BITS) == Elems(c);
    DistinctCard(c);
  }

  /** Every moved RBG was free and is not `last`. */
  lemma MovedFree(m: seq<bool>, last: nat, n: nat)
    requires last < |m| && n <= |FreeAfter(m, last, |m| - 1)|
    ensures forall j :: j in Moved(m, last, n) ==> j < |m| && !m[j] && j != last
  {
    var f := FreeAfter(m, last, |m| - 1);
    FreeAfterFree(m, last, |m| - 1);
    forall j | j in Moved(m, last, n)
      ensures j < |m| && !m[j] && j != last
    {
      var k :| 0 <= k < n && f[..n][k] == j;
      assert f[k] == j;
    }
  }

  /** No free RBG left out of the move comes earlier in the scan than one taken. */
  lemma MovedFirst(m: seq<bool>, last: nat, n: nat)
    requires last < |m| && n <= |FreeAfter(m, last, |m| - 1)|
    ensures forall x: nat, y: nat :: x < |m| && x != last && !m[x] && x !in Moved(m, last, n) && y in Moved(m, last, n) ==>
              Steps(last, y, |m|) < Steps(last, x, |m|)
  {
    var f := FreeAfter(m, last, |m| - 1);
    var c := Moved(m, last, n);
    FreeAfterSpec(m, last, |m| - 1);
    forall x: nat, y: nat | x < |m| && x != last && !m[x] && x !in c && y in c
      ensures Steps(last, y, |m|) < Steps(last, x, |m|)
    {
      assert x in f;
      var i :| 0 <= i < |f| && f[i] == x;
      var k :| 0 <= k < |c| && c[k] == y;
      assert f[k] == y;
    }
  }

  /**
   * The move branch of `Place`, on its own: the new bitmap has as many
   * RBGs as the original list, each free before and other than `last`; no
   * free RBG passed over comes earlier in the scan than one taken; exactly
   * the new RBGs are marked.
   */
  lemma PlaceMove(m: seq<bool>, rbgs: seq<nat>, bitmap: nat)
    requires |m| <= BITMAP_BITS && AllBelow(rbgs, |m|) && Distinct(rbgs) && !AllFree(m, rbgs)
    requires |rbgs| <= |FreeAfter(m, rbgs[|rbgs| - 1], |m| - 1)|
    ensures var pl := Place(m, rbgs, bitmap); var last := rbgs[|rbgs| - 1];
      |BitSet(pl.bitmap, BITMAP_BITS)| == |rbgs| && !pl.kept && pl.added == |rbgs| &&
      (forall j: nat :: Bit(pl.bitmap, j) ==> j < |m| && !m[j] && j != last) &&
      (forall x: nat, y: nat :: x < |m| && x != last && !m[x] && !Bit(pl.bitmap, x) && Bit(pl.bitmap, y) ==>
         Steps(last, y, |m|) < Steps(last, x, |m|)) &&
      |pl.rbgMap| == |m| && (forall j :: 0 <= j < |m| ==> pl.rbgMap[j] == (m[j] || Bit(pl.bitmap, j)))
  {
    var last := rbgs[|rbgs| - 1];
    var c := Moved(m, last, |rbgs|);
    assert Place(m, rbgs, bitmap) == Placement(MarkAll(m, c), Mask(c), |rbgs|, false);
    MovedBits(m, last, |rbgs|);
    MovedFree(m, last, |rbgs|);
    MovedFirst(m, last, |rbgs|);
  }

  /**
   * Original RBGs not all free, but enough free RBGs elsewhere: the
   * retransmission moves to a bitmap with as many RBGs as the original,
   * each free before and other than the last original RBG; no free RBG it
   * passed over comes earlier in the circular scan than one it took; and
   * exactly the new RBGs are marked and counted, with nothing kept.
   */
  lemma RetxMove(p: Pass, info: DlInfo)
    requires RetxOk(p, info) && !AllFree(p.rbgMap, OldRbgs(p, info))
    requires |OldRbgs(p, info)| <= |FreeAfter(p.rbgMap, LastOld(p, info), |p.rbgMap| - 1)|
    ensures var q := Step(p, info); var m := p.rbgMap; var last := LastOld(p, info);
      var sent := q.built[|p.built|].dci.rbBitmap;
      |q.built| == |p.built| + 1 &&
      |BitSet(sent, BITMAP_BITS)| == |BitSet(NackDci(p, info).rbBitmap, BITMAP_BITS)| &&
      (forall j: nat :: Bit(sent, j) ==> j < |m| && !m[j] && j != last) &&
      (forall x: nat, y: nat :: x < |m| && x != last && !m[x] && !Bit(sent, x) && Bit(sent, y) ==>
         Steps(last, y, |m|) < Steps(last, x, |m|)) &&
      |q.rbgMap| == |m| && (forall j :: 0 <= j < |m| ==> q.rbgMap[j] == (m[j] || Bit(sent, j))) &&
      q.allocNum == p.allocNum + |BitSet(sent, BITMAP_BITS)| && q.untxed == p.untxed
  {
    StepPlaced(p, info);
    OldRbgsBits(p, info);
    RetxPlaceMove(p, info);
  }

  /** PlaceMove for the NACKed RBGs of a retransmission that must move. */
  lemma RetxPlaceMove(p: Pass, info: DlInfo)
    requires RetxOk(p, info) && !AllFree(p.rbgMap, OldRbgs(p, info))
    requires |OldRbgs(p, info)| <= |FreeAfter(p.rbgMap, LastOld(p, info), |p.rbgMap| - 1)|
    ensures var m := p.rbgMap; var pl := Place(m, OldRbgs(p, info), NackDci(p, info).rbBitmap);
      var last := LastOld(p, info);
      |BitSet(pl.bitmap, BITMAP_BITS)| == |OldRbgs(p, info)| && !pl.kept && pl.added == |OldRbgs(p, info)| &&
      (forall j: nat :: Bit(pl.bitmap, j) ==> j < |m| && !m[j] && j != last) &&
      (forall x: nat, y: nat :: x < |m| && x != last && !m[x] && !Bit(pl.bitmap, x) && Bit(pl.bitmap, y) ==>
         Steps(last, y, |m|) < Steps(last, x, |m|)) &&
      |pl.rbgMap| == |m| && (forall j :: 0 <= j < |m| ==> pl.rbgMap[j] == (m[j] || Bit(pl.bitmap, j)))
  {
    PlaceMove(p.rbgMap, OldRbgs(p, info), NackDci(p, info).rbBitmap);
  }

  /**
   * Original RBGs not all free and too few free RBGs elsewhere: nothing is
   * marked or counted and the feedback is kept for the next TTI, yet the
   * retransmission is still sent, on its original bitmap, which holds an
   * RBG already in use.
   */
  lemma RetxKept(p: Pass, info: DlInfo)
    requires RetxOk(p, info) && !AllFree(p.rbgMap, OldRbgs(p, info))
    requires |OldRbgs(p, info)| > |FreeAfter(p.rbgMap, LastOld(p, info), |p.rbgMap| - 1)|
    ensures var q := Step(p, info); var bm := NackDci(p, info).rbBitmap;
      q.rbgMap == p.rbgMap && q.allocNum == p.allocNum && q.untxed == p.untxed + [info] &&
      |q.built| == |p.built| + 1 && q.built[|p.built|].dci.rbBitmap == bm && info.rnti in q.served &&
      (exists j: nat :: Bit(bm, j) && j < |p.rbgMap| && p.rbgMap[j])
  {
    var orig := OldRbgs(p, info);
    OldRbgsBits(p, info);
    StepPlaced(p, info);
    var k :| 0 <= k < |orig| && p.rbgMap[orig[k]];
    assert orig[k] in orig;
  }
}
