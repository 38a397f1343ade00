/**
 * The scheduler's `ueUl` map: the power-control steps of module Power
 * applied in place to one UE's record at a time.
 */
module UlPowerControl {
  import opened UplinkConfig
  import opened SchedTables
  import opened TbsShape
  import Amc
  import opened Power

  /** The scheduler's `ueUl` map and the counters the power loop reads. */
  class UlPowerControl {
    var ueUl: map<int, UeInfo>
    var ttiCounter: int
    const ulBandwidth: int
    const effState: EfficiencyState
    const amc: Amc.LteAmc

    ghost predicate Valid()
      reads this, amc, amc.sinrToMcs, amc.mcsToCqi, amc.ulCqiToItbsTbl
    {
      0 <= ulBandwidth <= NUM_NPRB && ttiCounter >= 0 &&
      amc.Valid() && amc.Filled() &&
      forall r :: r in ueUl ==> PowerOk(ueUl[r])
    }

    constructor (ulBandwidth: int, effState: EfficiencyState, amc: Amc.LteAmc)
      requires 0 <= ulBandwidth <= NUM_NPRB && amc.Valid() && amc.Filled()
      ensures Valid() && ueUl == map[] && ttiCounter == 0
      ensures this.ulBandwidth == ulBandwidth && this.effState == effState && this.amc == amc
    {
      ueUl := map[];
      ttiCounter := 0;
      this.ulBandwidth := ulBandwidth;
      this.effState := effState;
      this.amc := amc;
    }

    /** The uplink trigger advances the TTI counter. */
    method NextTti()
      requires Valid()
      modifies this
      ensures Valid() && ttiCounter == old(ttiCounter) + 1 && ueUl == old(ueUl)
    {
      ttiCounter := ttiCounter + 1;
    }

    /** `cfgUe`: `std::map::insert` leaves an existing record alone. */
    method CfgUe(rnti: int, rarMcs: int, enable64Qam: bool, volteOn: bool, ttiBundling: bool)
      requires Valid() && 0 <= rarMcs < 29
      modifies this
      ensures Valid() && ttiCounter == old(ttiCounter)
      ensures rnti in old(ueUl) ==> ueUl == old(ueUl)
      ensures rnti !in old(ueUl) ==>
        ueUl == old(ueUl)[rnti := Power.CfgUeAsWritten(rarMcs, ulBandwidth, ttiCounter, enable64Qam, volteOn, ttiBundling)]
    {
      if rnti !in ueUl {
        ueUl := ueUl[rnti := Power.CfgUeAsWritten(rarMcs, ulBandwidth, ttiCounter, enable64Qam, volteOn, ttiBundling)];
      }
    }

    /** `HarqCrcFail` on the UE's record. */
    method HarqCrcFail(rnti: int)
      requires Valid() && rnti in ueUl
      modifies this
      ensures Valid() && ttiCounter == old(ttiCounter)
      ensures ueUl == old(ueUl)[rnti := Power.HarqCrcFail(old(ueUl)[rnti], effState)]
    {
      CrcKeepsPowerOk(ueUl[rnti], effState, 0, false);
      ueUl := ueUl[rnti := Power.HarqCrcFail(ueUl[rnti], effState)];
    }

    /** `HarqCrcOk` on the UE's record, capped at the TBS index of its highest CQI. */
    method HarqCrcOk(rnti: int)
      requires Valid() && rnti in ueUl
      modifies this
      ensures Valid() && ttiCounter == old(ttiCounter)
      ensures ueUl == old(ueUl)[rnti := Power.HarqCrcOk(old(ueUl)[rnti], effState, amc.GetItbsFromCqi(old(ueUl)[rnti].maxUlCqi))]
    {
      var maxItbs := amc.GetItbsFromCqi(ueUl[rnti].maxUlCqi);
      CrcKeepsPowerOk(ueUl[rnti], effState, maxItbs, true);
      ueUl := ueUl[rnti := Power.HarqCrcOk(ueUl[rnti], effState, maxItbs)];
    }

    /** `PwrUpdPhr`: `tenLogM` is the truncated 10·log10 of the UE's allocation. */
    method PwrUpdPhr(phr: int, rnti: int, tenLogM: int)
      requires Valid() && rnti in ueUl && 0 <= ueUl[rnti].rbAllocation < 256
      modifies this
      ensures Valid() && ttiCounter == old(ttiCounter)
      ensures ueUl == old(ueUl)[rnti := Power.PwrUpdPhr(old(ueUl)[rnti], phr, ulBandwidth, tenLogM)]
    {
      var r := Power.PwrUpdPhr(ueUl[rnti], phr, ulBandwidth, tenLogM);
      StepsKeepPowerOk(ueUl[rnti].(phr := phr, pwrPerRb := r.pwrPerRb), effState, 0, 0, tenLogM);
      ueUl := ueUl[rnti := r];
    }

    /** `GetMaxRbs` outside UE_EFF mode: the grant limit, with the TPC command chosen on the way. */
    method GetMaxRbs(rnti: int) returns (rbs: int)
      requires Valid() && rnti in ueUl && effState != UeEff
      modifies this
      ensures Valid() && ttiCounter == old(ttiCounter)
      ensures MIN_MAX_RBS <= rbs < 256
      ensures ulBandwidth - 2 >= MIN_MAX_RBS ==> rbs <= ulBandwidth - 2
      ensures var m := Power.GetMaxRbs(old(ueUl)[rnti], ttiCounter, effState, ulBandwidth);
        rbs == m.rbs && ueUl == old(ueUl)[rnti := m.ue]
    {
      var ue := ueUl[rnti];
      var m := Power.GetMaxRbs(ue, ttiCounter, effState, ulBandwidth);
      StepsKeepPowerOk(ue, effState, ttiCounter, BasePwr(ue), 0);
      ueUl := ueUl[rnti := m.ue];
      rbs := m.rbs;
    }

    /** `SpectralEfficiencyCqi` on the UE's record; `mcs` is the MCS of the measured SINR. */
    method SpectralEfficiencyCqi(rnti: int, mcs: int)
      requires Valid() && rnti in ueUl && 0 <= mcs < 29
      requires 0 <= CqiAfterHeadroom(amc.GetCqiFromMcs(mcs), ueUl[rnti]) < 16
      modifies this
      ensures Valid() && ttiCounter == old(ttiCounter)
      ensures ueUl == old(ueUl)[rnti := Power.SpectralEfficiencyCqi(old(ueUl)[rnti], amc, mcs)]
    {
      var r := Power.SpectralEfficiencyCqi(ueUl[rnti], amc, mcs);
      ueUl := ueUl[rnti := r];
    }

    /** `SpectralEfficiencySinr` on the UE's record; `sinrNoDb` is the measured SINR in half-dB steps. */
    method SpectralEfficiencySinr(rnti: int, sinrNoDb: int)
      requires Valid() && rnti in ueUl && 0 <= sinrNoDb < 256
      requires 0 <= EffectiveSinr(ueUl[rnti], sinrNoDb) < |UlSinrToItbsTbl|
      modifies this
      ensures Valid() && ttiCounter == old(ttiCounter)
      ensures ueUl == old(ueUl)[rnti := Power.SpectralEfficiencySinr(old(ueUl)[rnti], amc, sinrNoDb)]
    {
      var r := Power.SpectralEfficiencySinr(ueUl[rnti], amc, sinrNoDb);
      ueUl := ueUl[rnti := r];
    }

    /** The power bookkeeping of a downlink DCI for the UE. */
    method DciPowerUpdate(rnti: int)
      requires Valid() && rnti in ueUl
      modifies this
      ensures Valid() && ttiCounter == old(ttiCounter)
      ensures ueUl == old(ueUl)[rnti := Power.DciPowerUpdate(old(ueUl)[rnti], effState, ttiCounter)]
    {
      StepsKeepPowerOk(ueUl[rnti], effState, ttiCounter, 0, 0);
      ueUl := ueUl[rnti := Power.DciPowerUpdate(ueUl[rnti], effState, ttiCounter)];
    }
  }
}
