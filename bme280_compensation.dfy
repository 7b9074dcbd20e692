/**
 * The BME280 integer compensation formulas (section 4.2.3 of the Bosch
 * BME280 datasheet, "Compensation formulas"), as `BME280.read` evaluates them
 * on Python's unbounded integers.  Results are kept in the datasheet's fixed-
 * point units; the service divides them by 100.0, 25600.0 and 1024.0 only
 * to present them.
 */
module Bme280Compensation {
  import opened Wrappers
  import opened Bits
  import opened Bme280Registers

  /** A compensated reading: centi-degrees Celsius, Pa in Q24.8, %RH in Q22.10. */
  datatype Reading = Reading(centiCelsius: int, pressureQ24_8: int, humidityQ22_10: int)

  /** Upper clamp bound of the humidity accumulator: 100 %RH in Q22.10, shifted left by 12. */
  const HumidityMax: int := 419430400

  // ---------------------------------------------------------------------------
  // Temperature
  // ---------------------------------------------------------------------------

  /** First temperature intermediate: `(((raw_temp >> 3) - (dig_T1 << 1)) * dig_T2) >> 11`. */
  function TempVar1(c: Calibration, rawTemp: int): int
  {
    Shr((Shr(rawTemp, 3) - Shl(c.digT1, 1)) * c.digT2, 11)
  }

  /** Second temperature intermediate, quadratic in `(raw_temp >> 4) - dig_T1`. */
  function TempVar2(c: Calibration, rawTemp: int): int
  {
    var d := Shr(rawTemp, 4) - c.digT1;
    Shr(Shr(d * d, 12) * c.digT3, 14)
  }

  /** The fine temperature shared by the pressure and humidity stages. */
  function TFine(c: Calibration, rawTemp: int): int
  {
    TempVar1(c, rawTemp) + TempVar2(c, rawTemp)
  }

  /**
   * `(t_fine * 5 + 128) >> 8`: the temperature in hundredths of a degree,
   * that is `t_fine * 5 / 256` rounded to the nearest integer, halves upward.
   */
  function CentiCelsius(tFine: int): (r: int)
    ensures 256 * r <= 5 * tFine + 128 < 256 * r + 256
  {
    Pow2Table();
    assert Pow2(8) == 256 by { Pow2Add(4, 4); }
    Shr(tFine * 5 + 128, 8)
  }

  // ---------------------------------------------------------------------------
  // Pressure
  // ---------------------------------------------------------------------------

  /** The pressure stage's first intermediate after line 97: the divisor of the floor division. */
  function PressureDivisor(c: Calibration, tFine: int): int
  {
    var var1 := tFine - 128000;
    var var1' := Shr(var1 * var1 * c.digP3, 8) + Shl(var1 * c.digP2, 12);
    Shr((Shl(1, 47) + var1') * c.digP1, 33)
  }

  /** The pressure stage's second intermediate after line 95. */
  function PressureVar2(c: Calibration, tFine: int): int
  {
    var var1 := tFine - 128000;
    var var2 := var1 * var1 * c.digP6;
    var var2' := var2 + Shl(var1 * c.digP5, 17);
    var2' + Shl(c.digP4, 35)
  }

  /** The dividend of the floor division on line 103. */
  function PressureDividend(c: Calibration, tFine: int, rawPress: int): int
  {
    var p := 1048576 - rawPress;
    (Shl(p, 31) - PressureVar2(c, tFine)) * 3125
  }

  /** The last two correction terms (P7–P9) applied to the quotient `p`. */
  function PressureFinish(c: Calibration, p: int): int
  {
    var var1 := Shr(c.digP9 * Shr(p, 13) * Shr(p, 13), 25);
    var var2 := Shr(c.digP8 * p, 19);
    Shr(p + var1 + var2, 8) + Shl(c.digP7, 4)
  }

  /**
   * Pressure in Pa, Q24.8.  When the divisor is zero the result is 0 and no
   * division happens; otherwise it is built from the Python floor quotient of
   * the dividend by the (possibly negative) divisor.
   */
  function Pressure(c: Calibration, tFine: int, rawPress: int): (r: int)
    ensures PressureDivisor(c, tFine) == 0 ==> r == 0
    ensures PressureDivisor(c, tFine) != 0 ==>
      exists q :: r == PressureFinish(c, q) &&
        IsFloorQuotient(PressureDividend(c, tFine, rawPress), PressureDivisor(c, tFine), q)
  {
    var divisor := PressureDivisor(c, tFine);
    if divisor == 0 then 0
    else
      var q := FloorDiv(PressureDividend(c, tFine, rawPress), divisor);
      PressureFinish(c, q)
  }

  /** A coefficient dig_P1 of zero forces the divisor to zero, so the pressure is reported as 0. */
  lemma ZeroP1GivesZeroPressure(c: Calibration, tFine: int, rawPress: int)
    requires c.digP1 == 0
    ensures Pressure(c, tFine, rawPress) == 0
  {
    assert PressureDivisor(c, tFine) == 0;
  }

  /**
   * The worked example of section 8.1 of the Bosch BMP280 datasheet, whose
   * temperature and pressure formulas the BME280 shares: 25.08 degrees C and
   * 100653.25 Pa (25767233 / 256).
   */
  lemma DatasheetExample()
    ensures var c := Calibration(27504, 26435, -1000, 36477, -10685, 3024, 2855, 140, -7, 15500, -14600, 6000,
                                 0, 0, 0, 0, 0, 0);
      && TFine(c, 519888) == 128422
      && CentiCelsius(128422) == 2508
      && PressureDivisor(c, 128422) == 597560748
      && Pressure(c, 128422, 415148) == 25767233
  {
    var c := Calibration(27504, 26435, -1000, 36477, -10685, 3024, 2855, 140, -7, 15500, -14600, 6000,
                         0, 0, 0, 0, 0, 0);
    Pow2Table();
    Pow2Add(1, 0); Pow2Add(2, 1); Pow2Add(8, 3); Pow2Add(12, 2); Pow2Add(8, 5); Pow2Add(12, 5);
    Pow2Add(4, 7); Pow2Add(16, 3);
    assert Pow2(3) == 8 && Pow2(11) == 2048 && Pow2(14) == 16384 && Pow2(13) == 8192 && Pow2(17) == 131072;
    assert Pow2(19) == 524288;
    Pow2Add(20, 5); Pow2Add(20, 13); Pow2Add(20, 15); Pow2Add(20, 11); Pow2Add(33, 14);
    assert Pow2(25) == 33554432 && Pow2(33) == 8589934592 && Pow2(35) == 34359738368;
    assert Pow2(31) == 2147483648 && Pow2(47) == 140737488355328;
    assert TempVar1(c, 519888) == 128793;
    assert TempVar2(c, 519888) == -371;
    assert PressureVar2(c, 128422) == 98104795527812;
    assert PressureDivisor(c, 128422) == 597560748;
    assert PressureDividend(c, 128422, 415148) == 3944285864554787500;
    assert FloorDiv(3944285864554787500, 597560748) == 6600644165;
    assert PressureFinish(c, 6600644165) == 25767233;
  }

  // ---------------------------------------------------------------------------
  // Humidity
  // ---------------------------------------------------------------------------

  /** The humidity accumulator of lines 109-113, before the clamp. */
  function HumidityUnclamped(c: Calibration, tFine: int, rawHum: int): int
  {
    var h := tFine - 76800;
    var h' := Shr(Shl(rawHum, 14) - Shl(c.digH4, 20) - c.digH5 * h + 16384, 15) *
              Shr((Shr(Shr(h * c.digH6, 10) * (Shr(h * c.digH3, 11) + 32768), 10) + 2097152) * c.digH2 + 8192, 14);
    h' - Shr(Shr(Shr(h', 15) * Shr(h', 15), 7) * c.digH1, 4)
  }

  /** `max(0, min(h, 419430400))`. */
  function Clamp(h: int): (r: int)
    ensures 0 <= r <= HumidityMax
    ensures 0 <= h <= HumidityMax ==> r == h
    ensures h < 0 ==> r == 0
    ensures h > HumidityMax ==> r == HumidityMax
  {
    var upper := if h < HumidityMax then h else HumidityMax;
    if 0 > upper then 0 else upper
  }

  /** Relative humidity in %RH, Q22.10: the clamped accumulator shifted right by 12. */
  function Humidity(c: Calibration, tFine: int, rawHum: int): (r: int)
    ensures 0 <= r <= 100 * 1024
  {
    Pow2Table();
    Shr(Clamp(HumidityUnclamped(c, tFine, rawHum)), 12)
  }

  /** Where the accumulator is already in range, the clamp changes nothing. */
  lemma HumidityUnclampedWhenInRange(c: Calibration, tFine: int, rawHum: int)
    requires 0 <= HumidityUnclamped(c, tFine, rawHum) <= HumidityMax
    ensures Humidity(c, tFine, rawHum) * 4096 <= HumidityUnclamped(c, tFine, rawHum)
    ensures HumidityUnclamped(c, tFine, rawHum) < Humidity(c, tFine, rawHum) * 4096 + 4096
  {
    Pow2Table();
  }

  /** An accumulator above the bound reads exactly 100 %RH; one below zero reads 0 %RH. */
  lemma HumiditySaturates(c: Calibration, tFine: int, rawHum: int)
    ensures HumidityUnclamped(c, tFine, rawHum) > HumidityMax ==> Humidity(c, tFine, rawHum) == 100 * 1024
    ensures HumidityUnclamped(c, tFine, rawHum) < 0 ==> Humidity(c, tFine, rawHum) == 0
  {
    Pow2Table();
    assert HumidityMax == 102400 * 4096;
  }

  // ---------------------------------------------------------------------------
  // The three stages together
  // ---------------------------------------------------------------------------

  /** Temperature first; pressure and humidity from its fine temperature. */
  function Compensate(c: Calibration, raw: RawSample): (r: Reading)
    ensures 0 <= r.humidityQ22_10 <= 100 * 1024
    ensures PressureDivisor(c, TFine(c, raw.temp)) == 0 ==> r.pressureQ24_8 == 0
  {
    var tFine := TFine(c, raw.temp);
    Reading(CentiCelsius(tFine), Pressure(c, tFine, raw.press), Humidity(c, tFine, raw.hum))
  }

  /** Pressure and humidity see the raw temperature only through t_fine. */
  lemma DependsOnTemperatureOnlyThroughTFine(c: Calibration, a: RawSample, b: RawSample)
    requires a.press == b.press && a.hum == b.hum
    requires TFine(c, a.temp) == TFine(c, b.temp)
    ensures Compensate(c, a) == Compensate(c, b)
  {
  }

  /**
   * `BME280.read` after the burst arrived: None when it is shorter than 8
   * bytes (the indexing raises), else the compensated reading of its raw values.
   */
  function Measure(c: Calibration, data: seq<Byte>): (r: Option<Reading>)
    ensures r.Some? <==> |data| >= DataLength
    ensures r.Some? ==> 0 <= r.value.humidityQ22_10 <= 100 * 1024
  {
    if |data| < DataLength then None else Some(Compensate(c, Unpack(data)))
  }
}
