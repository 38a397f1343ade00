/**
 * Uplink power control and link adaptation of the proportional-fair MAC
 * scheduler: the per-UE record `ueInfo` kept in `ueUl`, the transmit power
 * control (TPC) command choice, the power-limited resource-block count, the
 * outer loops on the TBS index and on the SINR margin, and the updates a
 * downlink DCI makes to the power state.
 *
 * Every step is a function from the old record to the new one; the class
 * `UlPowerControl` of module UlPowerControl holds the map `ueUl` and
 * applies them in place.
 */
module Power {
  import opened UplinkConfig
  import opened SchedTables
  import opened TbsShape
  import Amc

  /**
   * The uplink state of one UE. Field widths come from a header that is
   * not part of this model, so every number is an unbounded integer.
   */
  datatype UeInfo = UeInfo(
    deltaItbs: int,          // outer-loop offset of the TBS index, in hundredths
    avgItbs: int,            // smoothed TBS index, in hundredths
    phr: int,                // last power headroom report, dB
    pwrPerRb: int,           // transmit power per resource block, dB
    rbAllocation: int,
    delta: int,              // correction of the last TPC command, dB
    tpc: int,                // last TPC command field
    remPuschPwr: int,        // PUSCH correction still to be sent, dB
    isPhrAvail: bool,
    lastTpcAppliedTick: int,
    fi: int,                 // accumulated PUSCH power correction f(i)
    avgSinr: int,            // smoothed SINR, in hundredths of half-dB steps
    maxPwrDeltaByPhr: int,
    mcsIndex: int,
    itbsIndex: int,
    cqiIndex: int,
    deltaSinr: int,          // outer-loop SINR margin, in hundredths
    enable64Qam: bool,
    maxUlCqi: int,
    trgSinr: int,
    trgCqi: int,
    trgCqiDelta: int,
    volteOn: bool,
    isTtiBundling: bool,
    sinrMarginStepUp: int,
    sinrMarginStepDown: int,
    maxRb: int)

  /** C division of a signed value by a positive one: the quotient is truncated toward zero. */
  function TruncDiv(a: int, b: int): (q: int)
    requires b > 0
    ensures a >= 0 ==> q == a / b
    ensures a < 0 ==> q == -((-a) / b)
  {
    if a >= 0 then a / b else -((-a) / b)
  }

  /**
   * The accumulated PUSCH correction, in dB, that each TPC command field
   * stands for (3GPP TS 36.213 section 5.1.1.1, Table 5.1.1.1-2).
   */
  function TpcAccumulated(tpc: int): int
    requires 0 <= tpc <= 3
  {
    [-1, 0, 1, 3][tpc]
  }

  /** The bounds every UE record keeps. */
  predicate PowerOk(ue: UeInfo)
  {
    0 <= ue.tpc <= 3 && ue.delta == TpcAccumulated(ue.tpc) &&
    MIN_POWER_CORRECTION_FOR_PUSCH <= ue.fi <= MAX_POWER_CORRECTION_FOR_PUSCH &&
    -4000 <= ue.deltaSinr <= 4000 &&
    ue.sinrMarginStepUp >= 0 && ue.sinrMarginStepDown >= 0 &&
    0 <= ue.maxUlCqi < 16 && ue.avgSinr >= 0
  }

  // ---------------------------------------------------------------------
  // UE configuration
  // ---------------------------------------------------------------------

  /** Target block error rate, in percent, of a UE: 1 for VoLTE, TARGET_BLER otherwise. */
  function TargetBler(volteOn: bool): int
  {
    if volteOn then 1 else TARGET_BLER
  }

  /**
   * The record `cfgUe` inserts, with the average TBS index taken as given
   * `avgItbs`. `enable64Qam` is the coin `Is64Qam` draws.
   */
  function CfgUeWith(avgItbs: int, ulBandwidth: int, tti: int, enable64Qam: bool, volteOn: bool, ttiBundling: bool): UeInfo
  {
    var maxUlCqi := if enable64Qam then UL_NUM_CQI - 2 else MAX_UL_CQI_16Q;
    var bler := TargetBler(volteOn);
    var stepDown := MARGIN_STEP_DOWN * 2;
    var stepUp := if bler == 0 then 200 else if bler == 1 then 198 else stepDown * (100 - bler) / bler;
    var stepDown' := if bler == 0 then 1 else if bler == 1 then 2 else stepDown;
    UeInfo(
      deltaItbs := 0, avgItbs := avgItbs, phr := 40,
      pwrPerRb := MAX_UE_PWR - PwrRbToPwrdBTbl[MIN_MAX_RBS], rbAllocation := ulBandwidth,
      delta := 0, tpc := 1, remPuschPwr := 0, isPhrAvail := false, lastTpcAppliedTick := tti,
      fi := 0, avgSinr := 0, maxPwrDeltaByPhr := 0, mcsIndex := 0, itbsIndex := 0, cqiIndex := 0,
      deltaSinr := 0, enable64Qam := enable64Qam, maxUlCqi := maxUlCqi,
      trgSinr := if enable64Qam then UL_64QAM_TARGET_SINR else UL_16QAM_TARGET_SINR,
      trgCqi := maxUlCqi, trgCqiDelta := 0, volteOn := volteOn, isTtiBundling := ttiBundling,
      sinrMarginStepUp := stepUp, sinrMarginStepDown := stepDown', maxRb := 0)
  }

  /**
   * `cfgUe` as written: the TBS index of the random-access grant is stored
   * in `avgItbs` unscaled, although `avgItbs` is kept in hundredths.
   */
  function CfgUeAsWritten(rarMcs: int, ulBandwidth: int, tti: int, enable64Qam: bool, volteOn: bool, ttiBundling: bool): (ue: UeInfo)
    requires 0 <= rarMcs < 29
    ensures ue.avgItbs == Amc.GetItbsFromMcsUl(rarMcs) && ue.deltaItbs == 0
    ensures ue == CfgUe(rarMcs, ulBandwidth, tti, enable64Qam, volteOn, ttiBundling).(avgItbs := ue.avgItbs)
    ensures PowerOk(ue)
  {
    CfgUeWith(Amc.GetItbsFromMcsUl(rarMcs), ulBandwidth, tti, enable64Qam, volteOn, ttiBundling)
  }

  /**
   * `cfgUe` with the grant's TBS index scaled to hundredths. A new UE has
   * no power correction, the full allowed power per resource block, a
   * neutral TPC command issued now, and SINR-margin steps whose ratio is
   * the target block error rate: stepping up on each failure and down on
   * each success balances exactly at that rate.
   */
  function CfgUe(rarMcs: int, ulBandwidth: int, tti: int, enable64Qam: bool, volteOn: bool, ttiBundling: bool): (ue: UeInfo)
    requires 0 <= rarMcs < 29
    ensures PowerOk(ue)
    ensures ue.avgItbs + ue.deltaItbs == 100 * Amc.GetItbsFromMcsUl(rarMcs)
    ensures ue.tpc == 1 && ue.delta == 0 && ue.fi == 0 && ue.remPuschPwr == 0 && !ue.isPhrAvail
    ensures ue.lastTpcAppliedTick == tti && ue.phr == 40
    ensures ue.pwrPerRb + PwrRbToPwrdBTbl[MIN_MAX_RBS] == MAX_UE_PWR
    ensures ue.maxUlCqi == ue.trgCqi == (if enable64Qam then 14 else 11)
    ensures ue.sinrMarginStepUp * TargetBler(volteOn) == ue.sinrMarginStepDown * (100 - TargetBler(volteOn))
    ensures ue.sinrMarginStepDown > 0
  {
    CfgUeWith(100 * Amc.GetItbsFromMcsUl(rarMcs), ulBandwidth, tti, enable64Qam, volteOn, ttiBundling)
  }

  // ---------------------------------------------------------------------
  // TPC command choice
  // ---------------------------------------------------------------------

  /** Less than COOL_OFF_PERIOD_DURATION TTIs have passed since the last non-neutral command. */
  predicate CoolingOff(ue: UeInfo, tti: int)
  {
    tti < ue.lastTpcAppliedTick + COOL_OFF_PERIOD_DURATION
  }

  /** The correction `SetTpc` aims at: the remaining PUSCH correction, capped by the available power. */
  function TpcRequest(ue: UeInfo, availPwr: int): int
  {
    GetMin(ue.remPuschPwr, availPwr)
  }

  /** The command for a requested correction `d`, from the `tpcs`/`deltas` tables and the two saturating cases. */
  function TpcFor(ue: UeInfo, d: int): UeInfo
  {
    if d <= -1 then ue.(tpc := 0, delta := -1)
    else if d >= 3 then ue.(tpc := 3, delta := 3)
    else ue.(tpc := [1, 2, 2][d], delta := [0, 1, 1][d])
  }

  /**
   * `SetTpc` as written: the branch meant to stop lowering the power of a
   * UE that reports a headroom of 40 or more is overwritten by the next
   * `if`, which applies to the same requests.
   */
  function SetTpcAsWritten(ue: UeInfo, tti: int, availPwr: int): (r: UeInfo)
    ensures r == ue.(tpc := r.tpc, delta := r.delta)
    ensures 0 <= r.tpc <= 3 && r.delta == TpcAccumulated(r.tpc)
    ensures CoolingOff(ue, tti) ==> r.tpc == 1
    ensures !CoolingOff(ue, tti) && TpcRequest(ue, availPwr) >= 0 ==>
      0 <= r.delta <= TpcRequest(ue, availPwr) && (TpcRequest(ue, availPwr) >= 3 ==> r.delta == 3)
    ensures !CoolingOff(ue, tti) && TpcRequest(ue, availPwr) < 0 ==> r.tpc == 0
  {
    if !CoolingOff(ue, tti) then
      var d := TpcRequest(ue, availPwr);
      var u := if ue.phr >= 40 && d <= -1 then ue.(tpc := 1, delta := 0) else ue;
      TpcFor(u, d)
    else
      ue.(tpc := 1, delta := 0)
  }

  /**
   * `SetTpc` with the headroom branch kept: during the cool-off window the
   * command is neutral; afterwards its correction never exceeds a
   * non-negative request, saturates at +3 dB, is -1 dB for a negative
   * request, and is neutral for a negative request of a UE that already
   * transmits at its lowest power (headroom 40 or more). Only the command
   * changes.
   */
  function SetTpc(ue: UeInfo, tti: int, availPwr: int): (r: UeInfo)
    ensures r == ue.(tpc := r.tpc, delta := r.delta)
    ensures 0 <= r.tpc <= 3 && r.delta == TpcAccumulated(r.tpc)
    ensures CoolingOff(ue, tti) ==> r.tpc == 1
    ensures !CoolingOff(ue, tti) && TpcRequest(ue, availPwr) >= 0 ==>
      0 <= r.delta <= TpcRequest(ue, availPwr) && (TpcRequest(ue, availPwr) >= 3 ==> r.delta == 3)
    ensures !CoolingOff(ue, tti) && TpcRequest(ue, availPwr) < 0 ==>
      (ue.phr >= 40 ==> r.tpc == 1) && (ue.phr < 40 ==> r.tpc == 0)
  {
    if !CoolingOff(ue, tti) then
      var d := TpcRequest(ue, availPwr);
      if ue.phr >= 40 && d <= -1 then ue.(tpc := 1, delta := 0)
      else TpcFor(ue, d)
    else
      ue.(tpc := 1, delta := 0)
  }

  /** The two agree except on the overwritten branch. */
  lemma SetTpcAgrees(ue: UeInfo, tti: int, availPwr: int)
    ensures (CoolingOff(ue, tti) || ue.phr < 40 || TpcRequest(ue, availPwr) >= 0) <==>
      SetTpc(ue, tti, availPwr) == SetTpcAsWritten(ue, tti, availPwr)
  {
  }

  /** A UE with headroom 40 asked to lower its power still gets the -1 dB command as written. */
  lemma SetTpcAsWrittenIgnoresHeadroom(ue: UeInfo)
    requires ue == CfgUe(0, 50, 0, false, false, false).(remPuschPwr := -2)
    ensures ue.phr == 40 && SetTpcAsWritten(ue, 4, 5).tpc == 0 && SetTpc(ue, 4, 5).tpc == 1
  {
  }

  // ---------------------------------------------------------------------
  // Power-limited resource-block count
  // ---------------------------------------------------------------------

  lemma PwrToRbTblNonDecreasing()
    ensures NonDecreasing(PwrToRbTbl)
  {
  }

  /**
   * `GetPwrGetMaxRb` without the TTI-bundling offset: no headroom gives
   * one resource block, enough headroom for the whole band gives the whole
   * band, and the count never exceeds the band.
   */
  function GetPwrGetMaxRb(availPwr: int, ulBandwidth: int): (rbs: int)
    requires 0 <= ulBandwidth <= NUM_NPRB
    ensures availPwr <= 0 ==> rbs == 1
    ensures availPwr > 0 && availPwr >= PwrRbToPwrdBTbl[ulBandwidth] ==> rbs == ulBandwidth
    ensures 0 <= rbs <= GetMax(ulBandwidth, 1)
    ensures ulBandwidth >= 1 ==> rbs >= 1
  {
    if availPwr <= 0 then PwrToRbTbl[0]
    else if availPwr >= PwrRbToPwrdBTbl[ulBandwidth] then ulBandwidth
    else GetMin(ulBandwidth, PwrToRbTbl[availPwr])
  }

  /** More headroom never buys fewer resource blocks. */
  lemma GetPwrGetMaxRbMonotone(p1: int, p2: int, ulBandwidth: int)
    requires 1 <= ulBandwidth <= NUM_NPRB
    requires p1 <= p2
    ensures GetPwrGetMaxRb(p1, ulBandwidth) <= GetPwrGetMaxRb(p2, ulBandwidth)
  {
    if 0 < p1 < PwrRbToPwrdBTbl[ulBandwidth] && p2 < PwrRbToPwrdBTbl[ulBandwidth] {
      PwrToRbTblNonDecreasing();
      NonDecreasingBetween(PwrToRbTbl, p1, p2);
    }
  }

  /** The headroom before a TPC command: from the last report, or 3 dB when none has arrived. */
  function BasePwr(ue: UeInfo): int
  {
    if ue.isPhrAvail then MAX_UE_PWR - ue.pwrPerRb else 3
  }

  datatype AvailPwr = AvailPwr(pwr: int, ue: UeInfo)

  /**
   * `GetUeAvailPwr` outside UE_EFF mode: the TPC command is chosen for the
   * base headroom, the headroom left is the base less the command's
   * correction, and a 64QAM UE in SPECTRAL_EFF mode adds twice the
   * target-CQI offset for that headroom (passed to `GetTrgCqiDelta` as a
   * `uint8_t`, so a negative headroom wraps).
   */
  function GetUeAvailPwr(ue: UeInfo, tti: int, effState: EfficiencyState): (r: AvailPwr)
    requires effState != UeEff
    ensures r.ue == SetTpcAsWritten(ue, tti, BasePwr(ue)).(trgCqiDelta := r.ue.trgCqiDelta)
    ensures ue.enable64Qam && effState == SpectralEff ==>
      r.ue.trgCqiDelta == (if (BasePwr(ue) - r.ue.delta) % 256 <= 11 then 5 else 0) &&
      r.pwr == BasePwr(ue) - r.ue.delta + 2 * r.ue.trgCqiDelta
    ensures !(ue.enable64Qam && effState == SpectralEff) ==>
      r.ue.trgCqiDelta == ue.trgCqiDelta && r.pwr == BasePwr(ue) - r.ue.delta
  {
    var u := SetTpcAsWritten(ue, tti, BasePwr(ue));
    var p := BasePwr(ue) - u.delta;
    if ue.enable64Qam && effState == SpectralEff then
      var tcd := Amc.GetTrgCqiDelta(p % 256);
      AvailPwr(p + tcd * 2, u.(trgCqiDelta := tcd))
    else
      AvailPwr(p, u)
  }

  datatype MaxRbs = MaxRbs(rbs: int, ue: UeInfo)

  /**
   * A power-limited count clamped to [MIN_MAX_RBS, bandwidth-2], through
   * `uint16_t` and then `uint8_t`.
   */
  function GrantLimit(maxRb: int, ulBandwidth: int): (rbs: int)
    requires 0 <= maxRb && 0 <= ulBandwidth <= NUM_NPRB
    ensures MIN_MAX_RBS <= rbs < 256
    ensures ulBandwidth - 2 >= MIN_MAX_RBS ==> rbs <= ulBandwidth - 2
    ensures ulBandwidth - 2 >= MIN_MAX_RBS && MIN_MAX_RBS <= maxRb <= ulBandwidth - 2 ==> rbs == maxRb
    ensures ulBandwidth >= 2 ==> rbs == GetMax(GetMin(maxRb, ulBandwidth - 2), MIN_MAX_RBS) % 256
  {
    GetMax(GetMin(maxRb, ulBandwidth - 2) % 0x1_0000, MIN_MAX_RBS) % 256
  }

  /**
   * The second half of `GetMaxRbs`, from the headroom `a` left after the
   * TPC command: the power-limited count is stored in `maxRb`, a
   * power-lowering command lowers the power per resource block, and the
   * grant limit is that count clamped to [MIN_MAX_RBS, bandwidth-2] (the
   * clamp passes through `uint16_t` and the result through `uint8_t`).
   */
  function MaxRbsFrom(a: AvailPwr, ulBandwidth: int): (r: MaxRbs)
    requires 0 <= ulBandwidth <= NUM_NPRB
    ensures r.ue.maxRb == GetPwrGetMaxRb(a.pwr, ulBandwidth)
    ensures r.rbs == GrantLimit(r.ue.maxRb, ulBandwidth)
    ensures r.ue == a.ue.(pwrPerRb := r.ue.pwrPerRb, maxRb := r.ue.maxRb)
    ensures a.ue.tpc == 0 ==> r.ue.pwrPerRb == a.ue.pwrPerRb + a.ue.delta
    ensures a.ue.tpc != 0 ==> r.ue.pwrPerRb == a.ue.pwrPerRb
  {
    var u := if a.ue.tpc == 0 then a.ue.(pwrPerRb := a.ue.pwrPerRb + a.ue.delta) else a.ue;
    var maxRb := GetPwrGetMaxRb(a.pwr, ulBandwidth);
    MaxRbs(GrantLimit(maxRb, ulBandwidth), u.(maxRb := maxRb))
  }

  /**
   * `GetMaxRbs` outside UE_EFF mode: the grant limit for the headroom left
   * after this TTI's TPC command, at least MIN_MAX_RBS and at most
   * bandwidth-2; a power-lowering command lowers the power per resource
   * block by 1 dB.
   */
  function GetMaxRbs(ue: UeInfo, tti: int, effState: EfficiencyState, ulBandwidth: int): (r: MaxRbs)
    requires effState != UeEff
    requires 0 <= ulBandwidth <= NUM_NPRB
    ensures MIN_MAX_RBS <= r.rbs < 256
    ensures ulBandwidth - 2 >= MIN_MAX_RBS ==> r.rbs <= ulBandwidth - 2
    ensures r.ue.maxRb == GetPwrGetMaxRb(GetUeAvailPwr(ue, tti, effState).pwr, ulBandwidth)
    ensures r.ue.tpc == 0 ==> r.ue.pwrPerRb == ue.pwrPerRb - 1
    ensures r.ue.tpc != 0 ==> r.ue.pwrPerRb == ue.pwrPerRb
    ensures r.ue.tpc == SetTpcAsWritten(ue, tti, BasePwr(ue)).tpc
  {
    MaxRbsFrom(GetUeAvailPwr(ue, tti, effState), ulBandwidth)
  }

  // ---------------------------------------------------------------------
  // Remaining PUSCH correction
  // ---------------------------------------------------------------------

  /** The largest power increase the last headroom report allows; 0 without a report. */
  function MaxPwrDeltaByPhr(ue: UeInfo): int
  {
    if ue.isPhrAvail then (MAX_UE_PWR - PwrRbToPwrdBTbl[MIN_MAX_RBS]) - ue.pwrPerRb else 0
  }

  /**
   * The correction still to send for a wanted correction `need`: never more
   * than wanted, never an increase beyond what the headroom allows, and
   * nothing at all when an increase is wanted but the headroom is negative.
   */
  function RemPusch(maxDelta: int, need: int): (rem: int)
    ensures rem <= need
    ensures rem <= GetMax(maxDelta, 0)
    ensures maxDelta < 0 && need > 0 ==> rem == 0
    ensures maxDelta >= 0 || need <= 0 ==> rem == maxDelta || rem == need
  {
    if maxDelta < 0 && need > 0 then 0 else GetMin(maxDelta, need)
  }

  /**
   * `SetRemPuschDelta`: the wanted correction is twice the gap between the
   * target CQI, less its offset, and the measured CQI. Power is raised only
   * for a UE that has reported its headroom.
   */
  function SetRemPuschDelta(ue: UeInfo, cqi: int): (r: UeInfo)
    ensures r == ue.(maxPwrDeltaByPhr := MaxPwrDeltaByPhr(ue), remPuschPwr := r.remPuschPwr)
    ensures r.remPuschPwr <= ((ue.trgCqi - ue.trgCqiDelta) - cqi) * 2
    ensures r.remPuschPwr > 0 ==> ue.isPhrAvail && r.remPuschPwr <= r.maxPwrDeltaByPhr
  {
    var m := MaxPwrDeltaByPhr(ue);
    ue.(maxPwrDeltaByPhr := m, remPuschPwr := RemPusch(m, ((ue.trgCqi - ue.trgCqiDelta) - cqi) * 2))
  }

  /**
   * `SetRemPuschDeltaSinr`: the wanted correction is half the gap between
   * the target SINR and the measured one (`uint8_t`), truncated toward zero.
   */
  function SetRemPuschDeltaSinr(ue: UeInfo, sinr: int): (r: UeInfo)
    requires 0 <= sinr < 256
    ensures r == ue.(maxPwrDeltaByPhr := MaxPwrDeltaByPhr(ue), remPuschPwr := r.remPuschPwr)
    ensures r.remPuschPwr <= TruncDiv(ue.trgSinr - sinr, 2)
    ensures r.remPuschPwr > 0 ==> ue.isPhrAvail && r.remPuschPwr <= r.maxPwrDeltaByPhr
  {
    var m := MaxPwrDeltaByPhr(ue);
    ue.(maxPwrDeltaByPhr := m, remPuschPwr := RemPusch(m, TruncDiv(ue.trgSinr - sinr, 2)))
  }

  // ---------------------------------------------------------------------
  // Headroom reports and the target CQI
  // ---------------------------------------------------------------------

  /** `GetPwrRbToPwrdB`: the power of a resource-block count, capped at the band. */
  function GetPwrRbToPwrdB(rbs: int, ulBandwidth: int): (p: int)
    requires 0 <= rbs < 256 && 0 <= ulBandwidth <= NUM_NPRB
    ensures 0 <= p <= 20
    ensures rbs <= ulBandwidth ==> p == PwrRbToPwrdBTbl[rbs]
    ensures rbs > ulBandwidth ==> p == PwrRbToPwrdBTbl[ulBandwidth]
  {
    PwrRbToPwrdBTbl[GetMin(rbs, ulBandwidth)]
  }

  /** The path-loss estimate of `SetTargetCqi`; `tenLogM` is the truncated 10·log10 of the allocation. */
  function PathLossOf(ue: UeInfo, tenLogM: int): int
  {
    MAX_UE_PWR - ue.phr - P_O_NOMINAL_PUSCH - tenLogM - ue.fi
  }

  /**
   * The target CQI of a path loss, by the four thresholds. A negative path
   * loss fails the first test and lands in the second band.
   */
  function TargetCqiFor(pathLoss: int): (cqi: int)
    ensures exists i :: 0 <= i < |TargetCqi| && cqi == TargetCqi[i]
    ensures 0 <= pathLoss <= PathLoss[0] ==> cqi == TargetCqi[0]
    ensures pathLoss > PathLoss[3] ==> cqi == TargetCqi[3]
  {
    if 0 <= pathLoss <= PathLoss[0] then TargetCqi[0]
    else if pathLoss <= PathLoss[1] then TargetCqi[1]
    else if pathLoss <= PathLoss[2] then TargetCqi[2]
    else if pathLoss <= PathLoss[3] then TargetCqi[3]
    else TargetCqi[3]
  }

  /** Over non-negative path losses, a larger loss never raises the target CQI. */
  lemma TargetCqiForMonotone(p1: int, p2: int)
    requires 0 <= p1 <= p2
    ensures TargetCqiFor(p2) <= TargetCqiFor(p1)
  {
  }

  /** `SetTargetCqi`: the band's target, three higher for a 64QAM UE. */
  function SetTargetCqi(ue: UeInfo, tenLogM: int): (r: UeInfo)
    ensures r == ue.(trgCqi := r.trgCqi)
    ensures r.trgCqi == TargetCqiFor(PathLossOf(ue, tenLogM)) + (if ue.enable64Qam then 3 else 0)
    ensures 5 <= r.trgCqi <= 14
  {
    var c := TargetCqiFor(PathLossOf(ue, tenLogM));
    ue.(trgCqi := if ue.enable64Qam then c + 3 else c)
  }

  /**
   * `PwrUpdPhr`: the report is stored, the power per resource block is
   * what the report leaves of the UE's maximum for its allocation, the
   * target CQI is recomputed (the VoLTE target is the lowest band's), and
   * the report is marked available.
   */
  function PwrUpdPhr(ue: UeInfo, phr: int, ulBandwidth: int, tenLogM: int): (r: UeInfo)
    requires 0 <= ue.rbAllocation < 256 && 0 <= ulBandwidth <= NUM_NPRB
    ensures r == ue.(phr := phr, pwrPerRb := r.pwrPerRb, trgCqi := r.trgCqi, isPhrAvail := true)
    ensures r.pwrPerRb + r.phr + GetPwrRbToPwrdB(ue.rbAllocation, ulBandwidth) == MAX_UE_PWR
    ensures ue.volteOn ==> r.trgCqi == TargetCqi[4]
    ensures !ue.volteOn ==> r.trgCqi == SetTargetCqi(ue.(phr := phr), tenLogM).trgCqi
    ensures MaxPwrDeltaByPhr(r) == r.phr + GetPwrRbToPwrdB(ue.rbAllocation, ulBandwidth) - PwrRbToPwrdBTbl[MIN_MAX_RBS]
  {
    var rbPwr := GetPwrRbToPwrdB(ue.rbAllocation, ulBandwidth);
    var u := SetTargetCqi(ue.(phr := phr, pwrPerRb := MAX_UE_PWR - phr - rbPwr), tenLogM);
    var u' := if u.volteOn then u.(trgCqi := TargetCqi[4]) else u;
    u'.(isPhrAvail := true)
  }

  // ---------------------------------------------------------------------
  // Outer loops
  // ---------------------------------------------------------------------

  /** The effective TBS index, in hundredths, lies in [0, 100·maxItbs]. */
  predicate ItbsLoopOk(ue: UeInfo, maxItbs: int)
  {
    0 <= ue.avgItbs + ue.deltaItbs <= maxItbs * 100
  }

  /** `UlGetItbs`: the effective TBS index in whole units (through `uint8_t`), capped at `maxItbs`. */
  function UlGetItbs(ue: UeInfo, maxItbs: int): (itbs: int)
    requires 0 <= maxItbs
    ensures 0 <= itbs <= maxItbs
  {
    GetMin(TruncDiv(ue.avgItbs + ue.deltaItbs, 100) % 256, maxItbs)
  }

  /** Inside the outer loop's range the cap and the wrap never act. */
  lemma UlGetItbsInLoop(ue: UeInfo, maxItbs: int)
    requires 0 <= maxItbs < 256
    requires ItbsLoopOk(ue, maxItbs)
    ensures UlGetItbs(ue, maxItbs) == (ue.avgItbs + ue.deltaItbs) / 100
  {
    var s := ue.avgItbs + ue.deltaItbs;
    assert s / 100 <= maxItbs;
  }

  /** The UE is at the link edge: fewest resource blocks and lowest MCS. */
  predicate AtLinkEdge(ue: UeInfo)
  {
    ue.maxRb <= MIN_MAX_RBS && ue.mcsIndex == MIN_MCS
  }

  /**
   * `HarqCrcFail`. In SPECTRAL_EFF mode the TBS offset drops by 0.30, but
   * never below TBS index 0. Otherwise the SINR margin rises by the up-step,
   * capped at 4000, except at the link edge.
   */
  function HarqCrcFail(ue: UeInfo, effState: EfficiencyState): (r: UeInfo)
    ensures effState == SpectralEff ==>
      r == ue.(deltaItbs := r.deltaItbs) && r.avgItbs + r.deltaItbs >= 0 &&
      r.deltaItbs >= ue.deltaItbs - 30 &&
      (ue.avgItbs + ue.deltaItbs >= 0 ==> r.deltaItbs <= ue.deltaItbs) &&
      (ue.avgItbs + ue.deltaItbs - 30 >= 0 ==> r.deltaItbs == ue.deltaItbs - 30) &&
      (ue.avgItbs + ue.deltaItbs - 30 < 0 ==> r.avgItbs + r.deltaItbs == 0)
    ensures effState != SpectralEff ==>
      r == ue.(deltaSinr := r.deltaSinr) &&
      (AtLinkEdge(ue) ==> r.deltaSinr == ue.deltaSinr) &&
      (!AtLinkEdge(ue) ==> r.deltaSinr <= 4000) &&
      (!AtLinkEdge(ue) && ue.deltaSinr + ue.sinrMarginStepUp <= 4000 ==>
         r.deltaSinr == ue.deltaSinr + ue.sinrMarginStepUp) &&
      (!AtLinkEdge(ue) && ue.deltaSinr + ue.sinrMarginStepUp > 4000 ==> r.deltaSinr == 4000) &&
      (ue.deltaSinr <= 4000 && ue.sinrMarginStepUp >= 0 ==> ue.deltaSinr <= r.deltaSinr <= 4000)
  {
    if effState == SpectralEff then
      var d := ue.deltaItbs - 30;
      ue.(deltaItbs := if ue.avgItbs + d < 0 then -ue.avgItbs else d)
    else if !AtLinkEdge(ue) then
      ue.(deltaSinr := GetMin(4000, ue.deltaSinr + ue.sinrMarginStepUp))
    else
      ue
  }

  /**
   * `HarqCrcOk`. In SPECTRAL_EFF mode the TBS offset rises by 0.03, but
   * never above `maxItbs`, the TBS index of the UE's highest CQI. Otherwise
   * the SINR margin falls by the down-step, floored at -4000.
   */
  function HarqCrcOk(ue: UeInfo, effState: EfficiencyState, maxItbs: int): (r: UeInfo)
    ensures effState == SpectralEff ==>
      r == ue.(deltaItbs := r.deltaItbs) && r.avgItbs + r.deltaItbs <= maxItbs * 100 &&
      r.deltaItbs <= ue.deltaItbs + 3 &&
      (ue.avgItbs + ue.deltaItbs <= maxItbs * 100 ==> r.deltaItbs >= ue.deltaItbs) &&
      (ue.avgItbs + ue.deltaItbs + 3 <= maxItbs * 100 ==> r.deltaItbs == ue.deltaItbs + 3) &&
      (ue.avgItbs + ue.deltaItbs + 3 > maxItbs * 100 ==> r.avgItbs + r.deltaItbs == maxItbs * 100)
    ensures effState != SpectralEff ==>
      r == ue.(deltaSinr := r.deltaSinr) && r.deltaSinr >= -4000 &&
      (ue.deltaSinr - ue.sinrMarginStepDown >= -4000 ==> r.deltaSinr == ue.deltaSinr - ue.sinrMarginStepDown) &&
      (ue.deltaSinr - ue.sinrMarginStepDown < -4000 ==> r.deltaSinr == -4000) &&
      (ue.deltaSinr >= -4000 && ue.sinrMarginStepDown >= 0 ==> -4000 <= r.deltaSinr <= ue.deltaSinr)
  {
    if effState == SpectralEff then
      var d := ue.deltaItbs + 3;
      ue.(deltaItbs := if ue.avgItbs + d > maxItbs * 100 then maxItbs * 100 - ue.avgItbs else d)
    else
      ue.(deltaSinr := GetMax(-4000, ue.deltaSinr - ue.sinrMarginStepDown))
  }

  /** Both outcomes of a CRC keep the effective TBS index in its range. */
  lemma {:induction false} ItbsLoopKept(ue: UeInfo, maxItbs: int, crcOk: bool)
    requires maxItbs >= 0 && ItbsLoopOk(ue, maxItbs)
    ensures ItbsLoopOk(if crcOk then HarqCrcOk(ue, SpectralEff, maxItbs) else HarqCrcFail(ue, SpectralEff), maxItbs)
  {
    if crcOk {
      var r := HarqCrcOk(ue, SpectralEff, maxItbs);
      assert r.deltaItbs >= ue.deltaItbs;
    } else {
      var r := HarqCrcFail(ue, SpectralEff);
      assert r.deltaItbs <= ue.deltaItbs;
    }
  }

  /** Both outcomes of a CRC keep the record's bounds, the SINR margin among them. */
  lemma {:induction false} CrcKeepsPowerOk(ue: UeInfo, effState: EfficiencyState, maxItbs: int, crcOk: bool)
    requires PowerOk(ue)
    ensures PowerOk(if crcOk then HarqCrcOk(ue, effState, maxItbs) else HarqCrcFail(ue, effState))
  {
    if crcOk {
      var r := HarqCrcOk(ue, effState, maxItbs);
      assert r.deltaSinr <= ue.deltaSinr || r == ue.(deltaItbs := r.deltaItbs);
    } else {
      var r := HarqCrcFail(ue, effState);
      assert r.deltaSinr >= ue.deltaSinr || r == ue.(deltaItbs := r.deltaItbs);
    }
  }

  // ---------------------------------------------------------------------
  // Link adaptation from an uplink CQI report
  // ---------------------------------------------------------------------

  /**
   * The CQI after the headroom adjustment of `SpectralEfficiencyCqi`: for
   * a UE limited to fewer than 3 resource blocks, the headroom is added; a
   * negative headroom only lifts a result below 1 back to 1.
   */
  function CqiAfterHeadroom(cqi: int, ue: UeInfo): int
  {
    if ue.maxRb < 3 then
      if ue.maxPwrDeltaByPhr < 0 then (if cqi + ue.maxPwrDeltaByPhr < 1 then 1 else cqi)
      else cqi + ue.maxPwrDeltaByPhr
    else cqi
  }

  /** The TBS-index smoothing: 80% of the old average plus 20% of the new index, in hundredths. */
  function SmoothItbs(avg: int, itbs: int): int
  {
    TruncDiv(avg * 80 + itbs * 20 * 100, 100)
  }

  /** The smoothed TBS index lies between the old average and the new index. */
  lemma SmoothItbsBetween(avg: int, itbs: int)
    requires itbs >= 0
    ensures avg >= 0 ==> GetMin(avg, itbs * 100) <= SmoothItbs(avg, itbs) <= GetMax(avg, itbs * 100)
  {
    var lo, hi := GetMin(avg, itbs * 100), GetMax(avg, itbs * 100);
    var num := avg * 80 + itbs * 20 * 100;
    assert 100 * lo <= num <= 100 * hi;
    assert (100 * lo) / 100 == lo;
    assert num / 100 * 100 <= num;
  }

  /**
   * `SpectralEfficiencyCqi`. `mcs` is the MCS `GetMcsFromSinr` gives for
   * the measured SINR. The CQI of that MCS, adjusted for headroom, feeds a
   * smoothed TBS index (seeded with the first index); the UE's TBS index is
   * the outer-loop value capped at its highest CQI's, its MCS the one that
   * maps back to that index, and the remaining correction is recomputed
   * for the adjusted CQI.
   */
  function SpectralEfficiencyCqi(ue: UeInfo, amc: Amc.LteAmc, mcs: int): (r: UeInfo)
    reads amc, amc.sinrToMcs, amc.mcsToCqi, amc.ulCqiToItbsTbl
    requires amc.Valid() && amc.Filled()
    requires 0 <= mcs < 29 && 0 <= ue.maxUlCqi < 16
    requires 0 <= CqiAfterHeadroom(amc.GetCqiFromMcs(mcs), ue) < 16
    ensures r.cqiIndex == CqiAfterHeadroom(amc.GetCqiFromMcs(mcs), ue)
    ensures 0 <= r.itbsIndex <= amc.GetItbsFromCqi(ue.maxUlCqi)
    ensures 0 <= r.mcsIndex < 29 && Amc.McsToItbsUl[r.mcsIndex] == r.itbsIndex
    ensures ue.avgItbs > 0 ==>
      GetMin(ue.avgItbs, 100 * amc.GetItbsFromCqi(r.cqiIndex)) <= r.avgItbs <= GetMax(ue.avgItbs, 100 * amc.GetItbsFromCqi(r.cqiIndex))
    ensures ue.avgItbs == 0 ==> r.avgItbs == 100 * amc.GetItbsFromCqi(r.cqiIndex)
    ensures r.remPuschPwr <= ((ue.trgCqi - ue.trgCqiDelta) - r.cqiIndex) * 2
    ensures r.remPuschPwr > 0 ==> ue.isPhrAvail
    ensures r == ue.(mcsIndex := r.mcsIndex, cqiIndex := r.cqiIndex, itbsIndex := r.itbsIndex, avgItbs := r.avgItbs,
                     maxPwrDeltaByPhr := r.maxPwrDeltaByPhr, remPuschPwr := r.remPuschPwr)
  {
    var cqi := CqiAfterHeadroom(amc.GetCqiFromMcs(mcs), ue);
    var cqiItbs := amc.GetItbsFromCqi(cqi);
    var seed := if ue.avgItbs == 0 then cqiItbs * 100 else ue.avgItbs;
    SmoothItbsBetween(seed, cqiItbs);
    var u := ue.(cqiIndex := cqi, avgItbs := SmoothItbs(seed, cqiItbs));
    var itbs := UlGetItbs(u, amc.GetItbsFromCqi(ue.maxUlCqi));
    Amc.McsFromItbsRoundTrip(itbs, ue.enable64Qam);
    SetRemPuschDelta(u.(itbsIndex := itbs, mcsIndex := Amc.GetMcsFromItbs(itbs, ue.enable64Qam)), cqi)
  }

  /** The SINR smoothing of the scheduler, seeded with the first sample. */
  function SmoothSinr(avg: nat, sinrNoDb: nat): int
  {
    var a := if avg == 0 then sinrNoDb * 100 else avg;
    Smooth(a, sinrNoDb, if sinrNoDb > a then ALFA_HIGH else ALFA_LOW)
  }

  /** The index `SpectralEfficiencySinr` reads the SINR table at: the margin-corrected average in half-dB steps. */
  function EffectiveSinr(ue: UeInfo, sinrNoDb: int): int
    requires ue.avgSinr >= 0 && sinrNoDb >= 0
  {
    TruncDiv(SmoothSinr(ue.avgSinr, sinrNoDb) - ue.deltaSinr, 100)
  }

  /** A TBS index capped at UL_16QAM_MAX_ITBS for a 16QAM UE, then at 10 for VoLTE. */
  function CapItbs(ue: UeInfo, i: int): int
  {
    var i' := if !ue.enable64Qam && i > UL_16QAM_MAX_ITBS then UL_16QAM_MAX_ITBS else i;
    if i' > 10 && ue.volteOn then 10 else i'
  }

  /** The TBS index for an effective SINR, capped for 16QAM and for VoLTE. */
  function ItbsForSinr(ue: UeInfo, eff: int): (itbs: int)
    requires 0 <= eff < |UlSinrToItbsTbl|
    ensures 0 <= itbs <= UlSinrToItbsTbl[eff]
    ensures !ue.enable64Qam ==> itbs <= UL_16QAM_MAX_ITBS
    ensures ue.volteOn ==> itbs <= 10
    ensures (ue.enable64Qam || UlSinrToItbsTbl[eff] <= UL_16QAM_MAX_ITBS) && (!ue.volteOn || UlSinrToItbsTbl[eff] <= 10) ==>
      itbs == UlSinrToItbsTbl[eff]
  {
    CapItbs(ue, UlSinrToItbsTbl[eff])
  }

  /**
   * The link adaptation of `SpectralEfficiencySinr` at effective SINR
   * `eff`: the capped TBS index of the SINR table, the MCS that maps back
   * to it and that MCS's CQI, and the remaining correction for `eff`.
   */
  function AdaptToSinr(ue: UeInfo, amc: Amc.LteAmc, eff: int): (r: UeInfo)
    reads amc, amc.sinrToMcs, amc.mcsToCqi, amc.ulCqiToItbsTbl
    requires amc.Valid() && amc.Filled()
    requires 0 <= eff < |UlSinrToItbsTbl|
    ensures r.itbsIndex == ItbsForSinr(ue, eff)
    ensures 0 <= r.mcsIndex < 29 && Amc.McsToItbsUl[r.mcsIndex] == r.itbsIndex
    ensures 0 <= r.cqiIndex <= 14
    ensures r.remPuschPwr <= TruncDiv(ue.trgSinr - eff, 2)
    ensures r.remPuschPwr > 0 ==> ue.isPhrAvail
    ensures r == ue.(itbsIndex := r.itbsIndex, mcsIndex := r.mcsIndex, cqiIndex := r.cqiIndex,
                     maxPwrDeltaByPhr := r.maxPwrDeltaByPhr, remPuschPwr := r.remPuschPwr)
  {
    var itbs := ItbsForSinr(ue, eff);
    Amc.McsFromItbsRoundTrip(itbs, ue.enable64Qam);
    var mcs := Amc.GetMcsFromItbs(itbs, ue.enable64Qam);
    SetRemPuschDeltaSinr(ue.(itbsIndex := itbs, mcsIndex := mcs, cqiIndex := amc.GetCqiFromMcs(mcs)), eff)
  }

  /**
   * `SpectralEfficiencySinr`. `sinrNoDb` is the measured SINR in half-dB
   * steps offset by 128. The smoothed SINR is seeded with the first sample
   * and afterwards stays between its old value and the sample; the rest is
   * the adaptation to the smoothed SINR less the margin.
   */
  function SpectralEfficiencySinr(ue: UeInfo, amc: Amc.LteAmc, sinrNoDb: int): (r: UeInfo)
    reads amc, amc.sinrToMcs, amc.mcsToCqi, amc.ulCqiToItbsTbl
    requires amc.Valid() && amc.Filled()
    requires 0 <= sinrNoDb < 256 && ue.avgSinr >= 0
    requires 0 <= EffectiveSinr(ue, sinrNoDb) < |UlSinrToItbsTbl|
    ensures ue.avgSinr > 0 ==> GetMin(ue.avgSinr, sinrNoDb * 100) <= r.avgSinr <= GetMax(ue.avgSinr, sinrNoDb * 100)
    ensures ue.avgSinr == 0 ==> r.avgSinr == sinrNoDb * 100
    ensures r == AdaptToSinr(ue.(avgSinr := r.avgSinr), amc, EffectiveSinr(ue, sinrNoDb))
  {
    var a := if ue.avgSinr == 0 then sinrNoDb * 100 else ue.avgSinr;
    SmoothBetween(a, sinrNoDb, if sinrNoDb > a then ALFA_HIGH else ALFA_LOW);
    AdaptToSinr(ue.(avgSinr := SmoothSinr(ue.avgSinr, sinrNoDb)), amc, EffectiveSinr(ue, sinrNoDb))
  }

  // ---------------------------------------------------------------------
  // Downlink DCI
  // ---------------------------------------------------------------------

  /**
   * The power bookkeeping when a downlink DCI carries the UE's TPC
   * command. Outside UE_EFF mode the command's correction is taken off
   * the remaining correction and accumulated into f(i), clamped to the
   * PUSCH range; a reported headroom falls by the correction, floored at
   * -23 dB; and a non-neutral command starts a new cool-off window at `tti`.
   */
  function DciPowerUpdate(ue: UeInfo, effState: EfficiencyState, tti: int): (r: UeInfo)
    ensures effState != UeEff ==>
      r.remPuschPwr == ue.remPuschPwr - ue.delta &&
      MIN_POWER_CORRECTION_FOR_PUSCH <= r.fi <= MAX_POWER_CORRECTION_FOR_PUSCH &&
      (MIN_POWER_CORRECTION_FOR_PUSCH <= ue.fi + ue.delta <= MAX_POWER_CORRECTION_FOR_PUSCH ==> r.fi == ue.fi + ue.delta)
    ensures effState == UeEff ==> r.remPuschPwr == ue.remPuschPwr && r.fi == ue.fi
    ensures ue.isPhrAvail ==> r.phr >= -23 && (ue.phr - ue.delta >= -23 ==> r.phr == ue.phr - ue.delta)
    ensures !ue.isPhrAvail ==> r.phr == ue.phr
    ensures ue.tpc != 1 ==> r.lastTpcAppliedTick == tti
    ensures ue.tpc == 1 ==> r.lastTpcAppliedTick == ue.lastTpcAppliedTick
    ensures r == ue.(remPuschPwr := r.remPuschPwr, fi := r.fi, phr := r.phr, lastTpcAppliedTick := r.lastTpcAppliedTick)
  {
    var u1 := if effState != UeEff then
        ue.(remPuschPwr := ue.remPuschPwr - ue.delta, fi := CheckAndUpdatePowerCorrection(ue.fi + ue.delta))
      else ue;
    var u2 := if u1.isPhrAvail then u1.(phr := GetMax(u1.phr - u1.delta, -23)) else u1;
    if u2.tpc != 1 then u2.(lastTpcAppliedTick := tti) else u2
  }

  /**
   * After a non-neutral command goes out, the next COOL_OFF_PERIOD_DURATION
   * TTIs give neutral commands, and the one after may act again.
   */
  lemma CoolOffAfterCommand(ue: UeInfo, effState: EfficiencyState, tti: int, t: int, availPwr: int)
    requires ue.tpc != 1
    ensures tti <= t < tti + COOL_OFF_PERIOD_DURATION ==>
      SetTpcAsWritten(DciPowerUpdate(ue, effState, tti), t, availPwr).tpc == 1
    ensures t >= tti + COOL_OFF_PERIOD_DURATION ==> !CoolingOff(DciPowerUpdate(ue, effState, tti), t)
  {
  }

  /** Every step keeps the record's bounds. */
  lemma {:induction false} StepsKeepPowerOk(ue: UeInfo, effState: EfficiencyState, tti: int, availPwr: int, cqi: int)
    requires PowerOk(ue)
    ensures PowerOk(SetTpc(ue, tti, availPwr)) && PowerOk(SetTpcAsWritten(ue, tti, availPwr))
    ensures PowerOk(DciPowerUpdate(ue, effState, tti))
    ensures PowerOk(SetRemPuschDelta(ue, cqi))
    ensures PowerOk(SetTargetCqi(ue, cqi))
  {
    var r := DciPowerUpdate(ue, effState, tti);
    assert r.tpc == ue.tpc && r.delta == ue.delta && r.deltaSinr == ue.deltaSinr;
  }
}
