/**
 * Downlink HARQ bookkeeping of the proportional-fair scheduler
 * (`pw-ff-mac-scheduler.cc`): per RNTI, the current process id, the
 * eight process states, the eight retransmission timers, the DCI sent on
 * each process and the RLC PDUs each process carries, one list per layer.
 */
module DlHarq {

  /** Eight HARQ processes per UE (the `resize (8)` of the UE configuration). */
  const HARQ_PROC_NUM := 8
  const NUM_LAYERS := 2

  /** RNTIs are 16-bit. */
  const RNTI_LIMIT := 0x1_0000

  datatype RlcPdu = RlcPdu(lcid: int, size: int)

  /**
   * The fields of `DlDciListElement_s` the scheduler reads or writes: one
   * entry per layer in `ndi`, `rv`, `mcs` and `tbsSize`.
   */
  datatype DlDci = DlDci(rnti: int, harqProcess: int, rbBitmap: nat, ndi: seq<int>, rv: seq<int>,
                         mcs: seq<int>, tbsSize: seq<int>, tpc: int)

  datatype HarqStatus = Ack | Nack | Dtx

  /** `DlInfoListElement_s`: one HARQ feedback, one status per layer. */
  datatype DlInfo = DlInfo(rnti: int, harqProcessId: int, harqStatus: seq<HarqStatus>)

  /** A default-constructed DCI, as the buffer holds before the first transmission. */
  const EmptyDci := DlDci(0, 0, 0, [], [], [], [], 0)

  /**
   * How far forward process `j` lies from process `cur` in the circular
   * scan `cur + 1, cur + 2, ...`: 1 for the next process, 8 for `cur` itself.
   */
  function Dist(cur: int, j: int): int
  {
    if j > cur then j - cur else j - cur + HARQ_PROC_NUM
  }

  /**
   * The scan shared by `HarqProcessAvailability` and
   * `UpdateHarqProcessId`: starting after `cur`, stop at the first
   * process in state 0, or back at `cur`. The process found is idle
   * exactly when some process is idle, and no idle process comes before
   * it in the scan.
   */
  method ScanIdle(st: seq<int>, cur: int) returns (i: int)
    requires |st| == HARQ_PROC_NUM && 0 <= cur < HARQ_PROC_NUM
    ensures 0 <= i < HARQ_PROC_NUM
    ensures st[i] == 0 <==> exists j :: 0 <= j < HARQ_PROC_NUM && st[j] == 0
    ensures st[i] == 0 ==> forall j :: 0 <= j < HARQ_PROC_NUM && Dist(cur, j) < Dist(cur, i) ==> st[j] != 0
    ensures i == IdleScan(st, cur, (cur + 1) % HARQ_PROC_NUM)
  {
    i := (cur + 1) % HARQ_PROC_NUM;
    while st[i] != 0 && i != cur
      invariant 0 <= i < HARQ_PROC_NUM
      invariant IdleScan(st, cur, i) == IdleScan(st, cur, (cur + 1) % HARQ_PROC_NUM)
      decreases HARQ_PROC_NUM - Dist(cur, i)
    {
      i := (i + 1) % HARQ_PROC_NUM;
    }
    IdleScanFinds(st, cur, (cur + 1) % HARQ_PROC_NUM);
  }

  /**
   * The same scan as a function of the states: from process `i` on, the
   * first idle process, or `cur` once the scan is back at it.
   */
  function IdleScan(st: seq<int>, cur: int, i: int): (r: int)
    requires |st| == HARQ_PROC_NUM && 0 <= cur < HARQ_PROC_NUM && 0 <= i < HARQ_PROC_NUM
    ensures 0 <= r < HARQ_PROC_NUM
    decreases HARQ_PROC_NUM - Dist(cur, i)
  {
    if st[i] == 0 || i == cur then i else IdleScan(st, cur, (i + 1) % HARQ_PROC_NUM)
  }

  /**
   * Scanning on from a point before which no process is idle finds an
   * idle process exactly when there is one, and then the nearest one.
   */
  lemma {:induction false} IdleScanFinds(st: seq<int>, cur: int, i: int)
    requires |st| == HARQ_PROC_NUM && 0 <= cur < HARQ_PROC_NUM && 0 <= i < HARQ_PROC_NUM
    requires forall j :: 0 <= j < HARQ_PROC_NUM && Dist(cur, j) < Dist(cur, i) ==> st[j] != 0
    ensures st[IdleScan(st, cur, i)] == 0 <==> exists j :: 0 <= j < HARQ_PROC_NUM && st[j] == 0
    ensures forall j :: 0 <= j < HARQ_PROC_NUM && Dist(cur, j) < Dist(cur, IdleScan(st, cur, i)) ==> st[j] != 0
    decreases HARQ_PROC_NUM - Dist(cur, i)
  {
    if st[i] != 0 && i != cur {
      IdleScanFinds(st, cur, (i + 1) % HARQ_PROC_NUM);
    }
  }

  /** One refresh of a UE's timers: a timer at the timeout restarts, any other one ticks (modulo 256). */
  function RefreshTimers(t: seq<int>, timeout: int): (r: seq<int>)
  {
    seq(|t|, i requires 0 <= i < |t| => if t[i] == timeout then 0 else (t[i] + 1) % 256)
  }

  /** One refresh of a UE's process states: a process whose timer is at the timeout becomes idle. */
  function RefreshStatus(st: seq<int>, t: seq<int>, timeout: int): (r: seq<int>)
    requires |st| == |t|
  {
    seq(|st|, i requires 0 <= i < |st| => if t[i] == timeout then 0 else st[i])
  }

  /** `n` refreshes in a row. */
  function RefreshMany(st: seq<int>, t: seq<int>, timeout: int, n: nat): (r: (seq<int>, seq<int>))
    requires |st| == |t|
    ensures |r.0| == |st| && |r.1| == |t|
  {
    if n == 0 then (st, t)
    else
      var p := RefreshMany(st, t, timeout, n - 1);
      (RefreshStatus(p.0, p.1, timeout), RefreshTimers(p.1, timeout))
  }

  /**
   * Timers that start at most at the timeout (below 255) stay there: a
   * refresh never lets a timer wrap around or overshoot the timeout, and
   * it frees exactly the processes whose timers were at the timeout.
   */
  lemma RefreshKeepsTimersBounded(st: seq<int>, t: seq<int>, timeout: int)
    requires |st| == |t| && 0 <= timeout < 255
    requires forall i :: 0 <= i < |t| ==> 0 <= t[i] <= timeout
    ensures forall i :: 0 <= i < |t| ==> 0 <= RefreshTimers(t, timeout)[i] <= timeout
    ensures forall i :: 0 <= i < |t| && t[i] < timeout ==> RefreshTimers(t, timeout)[i] == t[i] + 1
    ensures forall i :: 0 <= i < |t| ==> (RefreshStatus(st, t, timeout)[i] == st[i] || RefreshStatus(st, t, timeout)[i] == 0)
  {
  }

  /**
   * A process not used again is freed by the refreshes: once its timer
   * has climbed from `t[i]` to the timeout, the next refresh frees it,
   * that is after `timeout - t[i] + 1` refreshes.
   */
  lemma {:induction false} RefreshFreesWithin(st: seq<int>, t: seq<int>, timeout: int, i: int)
    requires |st| == |t| && 0 <= timeout < 255 && 0 <= i < |t|
    requires forall k :: 0 <= k < |t| ==> 0 <= t[k] <= timeout
    ensures RefreshMany(st, t, timeout, timeout - t[i] + 1).0[i] == 0
  {
    var n := timeout - t[i];
    RefreshClimbs(st, t, timeout, i, n);
    var p := RefreshMany(st, t, timeout, n);
    assert p.1[i] == timeout;
  }

  lemma {:induction false} RefreshClimbs(st: seq<int>, t: seq<int>, timeout: int, i: int, n: nat)
    requires |st| == |t| && 0 <= timeout < 255 && 0 <= i < |t|
    requires forall k :: 0 <= k < |t| ==> 0 <= t[k] <= timeout
    requires t[i] + n <= timeout
    ensures RefreshMany(st, t, timeout, n).1[i] == t[i] + n
    ensures forall k :: 0 <= k < |t| ==> 0 <= RefreshMany(st, t, timeout, n).1[k] <= timeout
  {
    if n > 0 {
      RefreshClimbs(st, t, timeout, i, n - 1);
      var p := RefreshMany(st, t, timeout, n - 1);
      RefreshKeepsTimersBounded(p.0, p.1, timeout);
    }
  }

  /** The inner loop of `RefreshHarqProcesses`, over one UE's eight processes. */
  method RefreshSlots(t0: seq<int>, st0: seq<int>, timeout: int) returns (t: seq<int>, st: seq<int>)
    requires |t0| == |st0| == HARQ_PROC_NUM
    ensures t == RefreshTimers(t0, timeout) && st == RefreshStatus(st0, t0, timeout)
  {
    t, st := t0, st0;
    for i := 0 to HARQ_PROC_NUM
      invariant |t| == |st| == HARQ_PROC_NUM
      invariant t[..i] == RefreshTimers(t0, timeout)[..i] && t[i..] == t0[i..]
      invariant st[..i] == RefreshStatus(st0, t0, timeout)[..i] && st[i..] == st0[i..]
    {
      if t[i] == timeout {
        st := st[i := 0];
        t := t[i := 0];
      } else {
        t := t[i := (t[i] + 1) % 256];
      }
    }
    assert t == t[..HARQ_PROC_NUM] && st == st[..HARQ_PROC_NUM];
  }

  /** The downlink HARQ entries of one UE, as the five per-RNTI maps hold them. */
  datatype DlUe = DlUe(currentId: int, status: seq<int>, timers: seq<int>, dci: seq<DlDci>,
                       pdus: seq<seq<seq<RlcPdu>>>)

  /**
   * Eight processes, each with an 8-bit state and an 8-bit timer, a DCI
   * per process, a PDU list per layer and process, and a current id below 8.
   */
  predicate UeOk(u: DlUe)
  {
    0 <= u.currentId < HARQ_PROC_NUM &&
    |u.status| == HARQ_PROC_NUM && (forall i :: 0 <= i < HARQ_PROC_NUM ==> 0 <= u.status[i] < 256) &&
    |u.timers| == HARQ_PROC_NUM && (forall i :: 0 <= i < HARQ_PROC_NUM ==> 0 <= u.timers[i] < 256) &&
    |u.dci| == HARQ_PROC_NUM &&
    |u.pdus| == NUM_LAYERS && (forall l :: 0 <= l < NUM_LAYERS ==> |u.pdus[l]| == HARQ_PROC_NUM)
  }

  /** The process `UpdateHarqProcessId` picks: the first idle one after the current one. */
  function NextProcessId(u: DlUe): (id: int)
    requires UeOk(u)
    ensures 0 <= id < HARQ_PROC_NUM
    ensures u.status[id] == 0 <==> exists j :: 0 <= j < HARQ_PROC_NUM && u.status[j] == 0
    ensures forall j :: 0 <= j < HARQ_PROC_NUM && Dist(u.currentId, j) < Dist(u.currentId, id) ==> u.status[j] != 0
  {
    IdleScanFinds(u.status, u.currentId, (u.currentId + 1) % HARQ_PROC_NUM);
    IdleScan(u.status, u.currentId, (u.currentId + 1) % HARQ_PROC_NUM)
  }

  /** Whether the UE has an idle process. */
  predicate HasIdle(u: DlUe)
  {
    exists j :: 0 <= j < |u.status| && u.status[j] == 0
  }

  /** A new transmission's PDU appended to what process `id` keeps for layer `layer`. */
  function AddPdu(u: DlUe, layer: int, id: int, pdu: RlcPdu): (r: DlUe)
    requires UeOk(u) && 0 <= layer < NUM_LAYERS && 0 <= id < HARQ_PROC_NUM
    ensures UeOk(r)
  {
    u.(pdus := u.pdus[layer := u.pdus[layer][id := u.pdus[layer][id] + [pdu]]])
  }

  /**
   * Every known RNTI is 16-bit and has well-formed entries. The source
   * keeps five maps that the UE configuration fills together and the UE
   * release empties together, so they always know the same RNTIs; the
   * model keeps one map of records.
   */
  predicate UesOk(ues: map<int, DlUe>)
  {
    forall r :: r in ues ==> 0 <= r < RNTI_LIMIT && UeOk(ues[r])
  }

  /** The entries the UE configuration creates for a new RNTI: all processes idle, process 0 current. */
  const NewUe := DlUe(0, seq(HARQ_PROC_NUM, _ => 0), seq(HARQ_PROC_NUM, _ => 0), seq(HARQ_PROC_NUM, _ => EmptyDci),
                      seq(NUM_LAYERS, _ => seq(HARQ_PROC_NUM, _ => [])))

  /** A new UE is well formed, every process is idle, and its PDU lists are empty. */
  lemma NewUeOk()
    ensures UeOk(NewUe)
    ensures forall i :: 0 <= i < HARQ_PROC_NUM ==> NewUe.status[i] == 0 && NewUe.timers[i] == 0
    ensures forall l, i :: 0 <= l < NUM_LAYERS && 0 <= i < HARQ_PROC_NUM ==> NewUe.pdus[l][i] == []
  {
  }

  /** Configuring a new UE and releasing it again gives back the maps as they were. */
  lemma ConfigureThenRelease(ues: map<int, DlUe>, rnti: int)
    requires rnti !in ues
    ensures ues[rnti := NewUe] - {rnti} == ues
  {
  }

  /** One refresh of one UE. */
  function RefreshUe(u: DlUe, timeout: int): (r: DlUe)
    requires UeOk(u)
  {
    u.(timers := RefreshTimers(u.timers, timeout), status := RefreshStatus(u.status, u.timers, timeout))
  }

  /** The state after `RefreshHarqProcesses`. */
  function RefreshAll(ues: map<int, DlUe>, timeout: int): (r: map<int, DlUe>)
    requires UesOk(ues)
  {
    map r | r in ues :: RefreshUe(ues[r], timeout)
  }

  /** The state once the RNTIs below `n` have been refreshed. */
  function RefreshBelow(ues: map<int, DlUe>, timeout: int, n: int): (r: map<int, DlUe>)
    requires UesOk(ues)
  {
    map r | r in ues :: if r < n then RefreshUe(ues[r], timeout) else ues[r]
  }

  lemma RefreshUeOk(u: DlUe, timeout: int)
    requires UeOk(u)
    ensures UeOk(RefreshUe(u, timeout))
  {
  }

  lemma RefreshBelowOk(ues: map<int, DlUe>, timeout: int, n: int)
    requires UesOk(ues)
    ensures UesOk(RefreshBelow(ues, timeout, n))
    ensures RefreshBelow(ues, timeout, n).Keys == ues.Keys
  {
    var r := RefreshBelow(ues, timeout, n);
    forall x | x in r
      ensures 0 <= x < RNTI_LIMIT && UeOk(r[x])
    {
      RefreshUeOk(ues[x], timeout);
    }
  }

  lemma RefreshBelowStep(ues: map<int, DlUe>, timeout: int, n: int)
    requires UesOk(ues)
    ensures n in ues ==> RefreshBelow(ues, timeout, n + 1) == RefreshBelow(ues, timeout, n)[n := RefreshUe(ues[n], timeout)]
    ensures n !in ues ==> RefreshBelow(ues, timeout, n + 1) == RefreshBelow(ues, timeout, n)
  {
  }

  lemma RefreshBelowEnds(ues: map<int, DlUe>, timeout: int)
    requires UesOk(ues)
    ensures RefreshBelow(ues, timeout, 0) == ues
    ensures RefreshBelow(ues, timeout, RNTI_LIMIT) == RefreshAll(ues, timeout)
  {
  }

  /**
   * What a refresh does to one process of one UE: a process whose timer
   * was at the timeout is idle afterwards with its timer restarted; any
   * other process keeps its state, and a timer below the timeout (itself
   * below 255) advances by exactly one without passing the timeout. The
   * current id, the DCIs and the PDU lists stay, and no UE is added or lost.
   */
  lemma RefreshAllEffect(ues: map<int, DlUe>, timeout: int, rnti: int, i: int)
    requires UesOk(ues) && rnti in ues && 0 <= i < HARQ_PROC_NUM && 0 <= timeout < 255
    ensures var r := RefreshAll(ues, timeout);
      r.Keys == ues.Keys &&
      r[rnti].currentId == ues[rnti].currentId && r[rnti].dci == ues[rnti].dci && r[rnti].pdus == ues[rnti].pdus &&
      (ues[rnti].timers[i] == timeout ==> r[rnti].timers[i] == 0 && r[rnti].status[i] == 0) &&
      (ues[rnti].timers[i] != timeout ==> r[rnti].status[i] == ues[rnti].status[i]) &&
      (ues[rnti].timers[i] < timeout ==> r[rnti].timers[i] == ues[rnti].timers[i] + 1 <= timeout)
  {
  }

  class DlHarqProcesses {
    /** `m_harqOn`. */
    const harqOn: bool
    /** `HARQ_DL_TIMEOUT`, from a header that is not part of this model. */
    const timeout: int
    var ues: map<int, DlUe>
    /** `m_dlInfoListBuffered`: feedback whose retransmission found no room, kept for the next TTI. */
    var buffered: seq<DlInfo>

    predicate Valid()
      reads this
    {
      UesOk(ues)
    }

    constructor (harqOn: bool, timeout: int)
      ensures Valid() && this.harqOn == harqOn && this.timeout == timeout && ues == map[] && buffered == []
    {
      this.harqOn := harqOn;
      this.timeout := timeout;
      ues := map[];
      buffered := [];
    }

    /**
     * The downlink HARQ part of `DoCschedUeConfigReq`: an RNTI not seen
     * before gets idle processes with empty buffers; for a known RNTI only
     * the transmission mode changes, so its HARQ entries stay as they are.
     */
    method ConfigureUe(rnti: int)
      requires Valid() && 0 <= rnti < RNTI_LIMIT
      modifies this
      ensures Valid() && buffered == old(buffered)
      ensures rnti in old(ues) ==> ues == old(ues)
      ensures rnti !in old(ues) ==> ues == old(ues)[rnti := NewUe]
    {
      if rnti !in ues {
        NewUeOk();
        ues := ues[rnti := NewUe];
      }
    }

    /** The downlink HARQ part of `DoCschedUeReleaseReq`. */
    method ReleaseUe(rnti: int)
      requires Valid()
      modifies this
      ensures Valid()
      ensures ues == old(ues) - {rnti} && buffered == old(buffered)
    {
      ues := ues - {rnti};
    }

    /**
     * `HarqProcessAvailability`: whether the UE has an idle process. An
     * RNTI without HARQ entries is a fatal error.
     */
    method HarqProcessAvailability(rnti: int) returns (avail: bool)
      requires Valid() && rnti in ues
      ensures avail <==> exists j :: 0 <= j < HARQ_PROC_NUM && ues[rnti].status[j] == 0
    {
      var i := ScanIdle(ues[rnti].status, ues[rnti].currentId);
      avail := ues[rnti].status[i] == 0;
    }

    /**
     * `UpdateHarqProcessId`: with HARQ off, process 0 and no change.
     * Otherwise the first idle process after the current one, scanning
     * circularly; it becomes busy (state 1) and current. Finding no idle
     * process is a fatal error, which callers avoid by asking
     * `HarqProcessAvailability` first.
     */
    method UpdateHarqProcessId(rnti: int) returns (id: int)
      requires Valid() && rnti in ues
      requires harqOn ==> exists j :: 0 <= j < HARQ_PROC_NUM && ues[rnti].status[j] == 0
      modifies this
      ensures Valid()
      ensures buffered == old(buffered)
      ensures !harqOn ==> id == 0 && ues == old(ues)
      ensures harqOn ==> 0 <= id < HARQ_PROC_NUM && old(ues)[rnti].status[id] == 0
      ensures harqOn ==> forall j :: 0 <= j < HARQ_PROC_NUM && Dist(old(ues)[rnti].currentId, j) < Dist(old(ues)[rnti].currentId, id) ==>
                old(ues)[rnti].status[j] != 0
      ensures harqOn ==> ues == old(ues)[rnti := old(ues)[rnti].(currentId := id, status := old(ues)[rnti].status[id := 1])]
      ensures harqOn ==> id == NextProcessId(old(ues)[rnti])
    {
      if !harqOn {
        return 0;
      }
      var u := ues[rnti];
      id := ScanIdle(u.status, u.currentId);
      ues := ues[rnti := u.(currentId := id, status := u.status[id := 1])];
    }

    /**
     * The HARQ part of a new transmission: the DCI is kept on its process
     * and the process timer restarts.
     */
    method StoreDci(rnti: int, id: int, dci: DlDci)
      requires Valid() && rnti in ues && 0 <= id < HARQ_PROC_NUM
      modifies this
      ensures Valid() && buffered == old(buffered)
      ensures ues == old(ues)[rnti := old(ues)[rnti].(dci := old(ues)[rnti].dci[id := dci], timers := old(ues)[rnti].timers[id := 0])]
    {
      var u := ues[rnti];
      ues := ues[rnti := u.(dci := u.dci[id := dci], timers := u.timers[id := 0])];
    }

    /** A PDU of a new transmission is kept for a retransmission on layer `layer` of process `id`. */
    method BufferPdu(rnti: int, layer: int, id: int, pdu: RlcPdu)
      requires Valid() && rnti in ues && 0 <= layer < NUM_LAYERS && 0 <= id < HARQ_PROC_NUM
      modifies this
      ensures Valid() && buffered == old(buffered)
      ensures ues == old(ues)[rnti := AddPdu(old(ues)[rnti], layer, id, pdu)]
    {
      ues := ues[rnti := AddPdu(ues[rnti], layer, id, pdu)];
    }

    /**
     * `RefreshHarqProcesses`: every timer of every UE is refreshed, and a
     * process whose timer was at the timeout becomes idle. The UEs are
     * visited in RNTI order, as the source's map iteration does.
     */
    method RefreshHarqProcesses()
      requires Valid()
      modifies this
      ensures Valid()
      ensures ues == RefreshAll(old(ues), timeout) && buffered == old(buffered)
    {
      ghost var u0 := ues;
      RefreshBelowEnds(u0, timeout);
      for rnti := 0 to RNTI_LIMIT
        invariant ues == RefreshBelow(u0, timeout, rnti) && buffered == old(buffered)
      {
        RefreshBelowOk(u0, timeout, rnti);
        RefreshBelowStep(u0, timeout, rnti);
        if rnti in ues {
          var u := ues[rnti];
          var t, st := RefreshSlots(u.timers, u.status, timeout);
          ues := ues[rnti := u.(timers := t, status := st)];
        }
      }
      RefreshBelowOk(u0, timeout, RNTI_LIMIT);
    }
  }
}
