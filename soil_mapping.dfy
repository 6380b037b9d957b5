/*
 * Analog soil-moisture conversion shared by the analog snapshots (v5.0 to v10.7):
 * the 12-bit ADC value goes through Arduino's integer `map` from the dry
 * calibration point (4095) to the wet one (1500), then `constrain` to [0, 100].
 */
module SoilMapping {

  /** Calibration: the raw reading of the probe in air and in water. */
  const AirValue: int := 4095
  const WaterValue: int := 1500

  /** `analogRead` on the ESP32 returns a 12-bit value. */
  type AdcReading = r: int | 0 <= r <= 4095

  function Abs(x: int): nat { if x < 0 then -x else x }

  /** C and C++ integer division truncates toward zero (Dafny's `/` is Euclidean). */
  function TruncDiv(a: int, b: int): (q: int)
    requires b != 0
    ensures Abs(q) == Abs(a) / Abs(b)
    ensures (a < 0) == (b < 0) ==> q >= 0
    ensures (a < 0) != (b < 0) ==> q <= 0
  {
    var m := Abs(a) / Abs(b);
    assert 0 <= m by { DivNonNegative(Abs(a), Abs(b)); }
    if (a < 0) == (b < 0) then m else -m
  }

  lemma DivNonNegative(x: nat, y: nat)
    requires y > 0
    ensures x / y >= 0
  {
  }

  /**
   * The ESP32 core's `map(x, inMin, inMax, outMin, outMax)` computes
   * `(x - inMin) * (outMax - outMin) / (inMax - inMin) + outMin` in `long`;
   * here with the firmware's arguments `map(soilRaw, airValue, waterValue, 0, 100)`.
   * The product stays below 2^31 for every 12-bit reading.
   */
  function MapToPercent(raw: AdcReading): int {
    TruncDiv((raw - AirValue) * (100 - 0), WaterValue - AirValue) + 0
  }

  function Constrain(x: int, lo: int, hi: int): int
    requires lo <= hi
  {
    if x < lo then lo else if x > hi then hi else x
  }

  /** `soilPercent` as the analog snapshots compute it. */
  function SoilPercent(raw: AdcReading): (p: int)
    ensures 0 <= p <= 100
  {
    Constrain(MapToPercent(raw), 0, 100)
  }

  /**
   * The closed form: the reading is the share of the dry-to-wet span covered,
   * rounded down, and saturates at 100 for readings wetter than the water point.
   */
  lemma SoilPercentClosedForm(raw: AdcReading)
    ensures SoilPercent(raw) == if raw <= WaterValue then 100 else (AirValue - raw) * 100 / (AirValue - WaterValue)
  {
    var a := (raw - AirValue) * 100;
    assert a <= 0;
    if a == 0 {
      assert MapToPercent(raw) == 0;
    } else {
      assert TruncDiv(a, WaterValue - AirValue) == Abs(a) / 2595;
      assert Abs(a) == (AirValue - raw) * 100;
    }
  }

  /** Wetter readings (a lower raw value) never give a lower percentage. */
  lemma SoilPercentAntitone(wet: AdcReading, dry: AdcReading)
    requires wet <= dry
    ensures SoilPercent(dry) <= SoilPercent(wet)
  {
    SoilPercentClosedForm(wet);
    SoilPercentClosedForm(dry);
  }

  /** The irrigation thresholds in raw units: below 20 % means a reading above 3576. */
  lemma DryThreshold(raw: AdcReading)
    ensures SoilPercent(raw) < 20 <==> raw > 3576
  {
    SoilPercentClosedForm(raw);
  }

  /** Above 80 % means a reading of at most 1993. */
  lemma WetThreshold(raw: AdcReading)
    ensures SoilPercent(raw) > 80 <==> raw <= 1993
  {
    SoilPercentClosedForm(raw);
  }
}
