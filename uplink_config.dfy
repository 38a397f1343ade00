/**
 * Uplink link-adaptation and power-control constants and the small helper
 * macros the scheduler builds on (`up-link-config.h`).
 */
module UplinkConfig {

  const MAX_UL_CQI_16Q := 11
  const UL_NUM_CQI := 16
  const UL_16QAM_MAX_ITBS := 21
  const UL_16QAM_TARGET_SINR := 166
  const UL_64QAM_TARGET_SINR := 176
  const P_O_NOMINAL_PUSCH := -96
  const COOL_OFF_PERIOD_DURATION := 4
  const MAX_UE_PWR := 23
  const MIN_POWER_CORRECTION_FOR_PUSCH := -63
  const MAX_POWER_CORRECTION_FOR_PUSCH := 63
  const ALFA_HIGH := 150
  const ALFA_LOW := 150
  const FACTOR := 1000
  const UP_64_QAM_PRECENTAGE := 0
  const TARGET_BLER := 10
  const MARGIN_STEP_DOWN := 3
  const MIN_MAX_RBS := 3
  const MIN_MCS := 3

  /** The three link-adaptation modes of the scheduler (`enum State`). */
  datatype EfficiencyState = UeEff | SpectralEff | NewSpectralEff

  /** `GET_MIN`: the first argument wins a tie. */
  function GetMin(x: int, y: int): (r: int)
    ensures r == x || r == y
    ensures r <= x && r <= y
  {
    if x <= y then x else y
  }

  /** `GET_MAX`: the first argument wins a tie. */
  function GetMax(x: int, y: int): (r: int)
    ensures r == x || r == y
    ensures r >= x && r >= y
  {
    if x >= y then x else y
  }

  /**
   * `CHECK_AND_UPDATE_POWER_CORRECTION_FOR_PUSCH`: the macro reassigns its
   * argument; the model returns the value the argument holds afterwards.
   */
  function CheckAndUpdatePowerCorrection(v: int): (r: int)
    ensures MIN_POWER_CORRECTION_FOR_PUSCH <= r <= MAX_POWER_CORRECTION_FOR_PUSCH
    ensures MIN_POWER_CORRECTION_FOR_PUSCH <= v <= MAX_POWER_CORRECTION_FOR_PUSCH ==> r == v
    ensures v < MIN_POWER_CORRECTION_FOR_PUSCH ==> r == MIN_POWER_CORRECTION_FOR_PUSCH
    ensures v > MAX_POWER_CORRECTION_FOR_PUSCH ==> r == MAX_POWER_CORRECTION_FOR_PUSCH
  {
    if MIN_POWER_CORRECTION_FOR_PUSCH > v then MIN_POWER_CORRECTION_FOR_PUSCH
    else if MAX_POWER_CORRECTION_FOR_PUSCH < v then MAX_POWER_CORRECTION_FOR_PUSCH
    else v
  }

  /** Applying the clamp a second time changes nothing. */
  lemma PowerCorrectionIdempotent(v: int)
    ensures CheckAndUpdatePowerCorrection(CheckAndUpdatePowerCorrection(v)) == CheckAndUpdatePowerCorrection(v)
  {
  }

  /**
   * The exponential smoothing the scheduler applies to the uplink SINR:
   * `((FACTOR - alfa) * avg + alfa * sample * 100) / FACTOR`, where `avg`
   * is kept in hundredths and `sample` is a whole unit.
   */
  function Smooth(avg: nat, sample: nat, alfa: int): int
  {
    ((FACTOR - alfa) * avg + alfa * sample * 100) / FACTOR
  }

  /**
   * Because FACTOR exceeds both smoothing weights, the new average lies
   * between the old average and the scaled sample.
   */
  lemma SmoothBetween(avg: nat, sample: nat, alfa: int)
    requires alfa == ALFA_HIGH || alfa == ALFA_LOW
    ensures GetMin(avg, sample * 100) <= Smooth(avg, sample, alfa) <= GetMax(avg, sample * 100)
  {
    var lo, hi := GetMin(avg, sample * 100), GetMax(avg, sample * 100);
    var w := FACTOR - alfa;
    assert 0 < w && 0 < alfa;
    var num := w * avg + alfa * sample * 100;
    assert w * lo <= w * avg <= w * hi;
    assert alfa * lo <= alfa * (sample * 100) <= alfa * hi;
    assert FACTOR * lo <= num <= FACTOR * hi;
    assert lo <= num / FACTOR by {
      assert (FACTOR * lo) / FACTOR == lo;
    }
    assert num / FACTOR <= hi by {
      assert num / FACTOR * FACTOR <= num;
    }
  }
}
