/**
 * The BME280 driver object and the service that polls it.
 *
 * The I2C character device is abstracted: every byte string written to it is
 * appended to `writes`, and what a read returns is passed in by the caller.
 * A read that returns fewer bytes than asked for, or that raises, is handled
 * as the source handles it.
 */
module Bme280Driver {
  import opened Wrappers
  import opened Bme280Registers
  import opened Bme280Compensation

  const I2CPort: int := 1
  const I2CAddress: int := 0x76

  /** The three register writes of `_configure`: ctrl_hum, ctrl_meas, config. */
  const ConfigureWrites: seq<seq<Byte>> := [[0xF2, 0x05], [0xF4, 0xB7], [0xF5, 0x00]]

  /** The register-address writes that precede the three calibration reads. */
  const CalibrationReadWrites: seq<seq<Byte>> := [[Cal1Register], [Cal2Register], [Cal3Register]]

  /** A two-byte write that sets register `reg`. */
  predicate IsWriteTo(w: seq<Byte>, reg: Byte)
  {
    |w| == 2 && w[0] == reg
  }

  /** The value a register holds after the writes of `log`: its last write, if any. */
  function LastWrite(log: seq<seq<Byte>>, reg: Byte): (r: Option<Byte>)
    ensures r.None? <==> forall i :: 0 <= i < |log| ==> !IsWriteTo(log[i], reg)
    ensures r.Some? ==> exists i ::
              && 0 <= i < |log| && log[i] == [reg, r.value]
              && forall j :: i < j < |log| ==> !IsWriteTo(log[j], reg)
  {
    if log == [] then None
    else if IsWriteTo(log[|log| - 1], reg) then Some(log[|log| - 1][1])
    else LastWrite(log[..|log| - 1], reg)
  }

  /** The settings the control registers select after `log`, once all three have been written. */
  function SettingsAfter(log: seq<seq<Byte>>): Option<SensorSettings>
  {
    match (LastWrite(log, CtrlHumRegister), LastWrite(log, CtrlMeasRegister), LastWrite(log, ConfigRegister))
    case (Some(h), Some(m), Some(c)) => Some(SettingsOf(h, m, c))
    case _ => None
  }

  /**
   * A ctrl_hum setting takes effect only at the next ctrl_meas write: the
   * last ctrl_hum write of `log` has been followed by a ctrl_meas write.
   */
  predicate HumidityLatched(log: seq<seq<Byte>>)
  {
    exists i, j ::
      && 0 <= i < j < |log| && IsWriteTo(log[i], CtrlHumRegister) && IsWriteTo(log[j], CtrlMeasRegister)
      && forall k :: i < k < |log| ==> !IsWriteTo(log[k], CtrlHumRegister)
  }

  /** One more write changes what `reg` holds only when it is a write to `reg`. */
  lemma LastWriteAfter(log: seq<seq<Byte>>, w: seq<Byte>, reg: Byte)
    ensures LastWrite(log + [w], reg) == if IsWriteTo(w, reg) then Some(w[1]) else LastWrite(log, reg)
  {
    assert (log + [w])[..|log|] == log;
  }

  /**
   * The settings `_configure` selects: x16 oversampling of humidity,
   * temperature and pressure, normal mode, 0.5 ms standby, IIR filter off,
   * SPI 3-wire interface off.
   */
  const Configured: SensorSettings := SensorSettings(X16, X16, X16, Normal, 0.5, 0, false)

  /** The three values `_configure` writes decode to `Configured`. */
  lemma ConfiguredBytes()
    ensures SettingsOf(0x05, 0xB7, 0x00) == Configured
  {
    assert 0x05 % 8 == 5 && 0xB7 / 32 == 5 && 0xB7 / 4 % 8 == 5 && 0xB7 % 4 == 3;
    assert OversamplingOf(5) == X16 && PowerModeOf(3) == Normal;
    assert StandbyMsOf(0) == 0.5 && FilterCoefficientOf(0) == 0;
  }

  /**
   * What `_configure` selects: x16 oversampling of humidity, temperature and
   * pressure, normal mode, 0.5 ms standby, the IIR filter off and SPI 3-wire
   * off; the humidity setting is latched.  This holds whatever was written before.
   */
  lemma ConfigureSelects(prior: seq<seq<Byte>>)
    ensures SettingsAfter(prior + ConfigureWrites) == Some(Configured)
    ensures HumidityLatched(prior + ConfigureWrites)
  {
    var l1 := prior + [ConfigureWrites[0]];
    var l2 := l1 + [ConfigureWrites[1]];
    var log := l2 + [ConfigureWrites[2]];
    assert log == prior + ConfigureWrites;
    LastWriteAfter(l2, ConfigureWrites[2], ConfigRegister);
    LastWriteAfter(l2, ConfigureWrites[2], CtrlMeasRegister);
    LastWriteAfter(l1, ConfigureWrites[1], CtrlMeasRegister);
    LastWriteAfter(l2, ConfigureWrites[2], CtrlHumRegister);
    LastWriteAfter(l1, ConfigureWrites[1], CtrlHumRegister);
    LastWriteAfter(prior, ConfigureWrites[0], CtrlHumRegister);
    ConfiguredBytes();
    var n := |prior|;
    assert IsWriteTo(log[n], CtrlHumRegister) && IsWriteTo(log[n + 1], CtrlMeasRegister);
    assert forall k :: n < k < |log| ==> !IsWriteTo(log[k], CtrlHumRegister);
  }

  class Bme280 {
    const bus: int
    const address: int
    /** Every byte string written to the device, oldest first. */
    var writes: seq<seq<Byte>>

    /** The 18 trimming coefficients, the `dig_T1` .. `dig_H6` attributes of the source. */
    var calibration: Calibration

    /** `_open`: the device handle bound to the bus and slave address, nothing written yet. */
    constructor Open(bus: int, address: int)
      ensures this.bus == bus && this.address == address
      ensures writes == []
    {
      this.bus := bus;
      this.address := address;
      writes := [];
      calibration := Calibration(0, 0, 0, 0, 0, 0, 0, 0, 0, 0, 0, 0, 0, 0, 0, 0, 0, 0);
    }

    /** `_write_byte(reg, value)`: one two-byte write. */
    method WriteByte(reg: Byte, value: Byte)
      modifies this`writes
      ensures writes == old(writes) + [[reg, value]]
    {
      writes := writes + [[reg, value]];
    }

    /**
     * `_load_calibration`, given what the three reads at 0x88 (26 bytes),
     * 0xA1 (1 byte) and 0xE1 (7 bytes) returned.  It fails when a block is too
     * short for the bytes it unpacks.
     */
    method LoadCalibration(cal1: seq<Byte>, cal2: seq<Byte>, cal3: seq<Byte>) returns (ok: bool)
      modifies this
      ensures writes == old(writes) + CalibrationReadWrites
      ensures ok == BlocksComplete(cal1, cal2, cal3)
      ensures ok ==> DecodeCalibration(cal1, cal2, cal3) == Some(calibration)
      ensures !ok ==> calibration == old(calibration)
    {
      writes := writes + CalibrationReadWrites;
      var decoded := DecodeCalibration(cal1, cal2, cal3);
      if decoded.None? {
        return false;
      }
      calibration := decoded.value;
      ok := true;
    }

    /** `_configure`: exactly the three configuration writes, in order. */
    method Configure()
      modifies this`writes
      ensures writes == old(writes) + ConfigureWrites
      ensures SettingsAfter(writes) == Some(Configured)
      ensures HumidityLatched(writes)
    {
      WriteByte(0xF2, 0x05);
      WriteByte(0xF4, 0xB7);
      WriteByte(0xF5, 0x00);
      ConfigureSelects(old(writes));
    }

    /**
     * `read`: selects register 0xF7, reads the 8-byte burst (`burst` is None
     * when the read raises) and compensates it with the stored coefficients.
     */
    method Read(burst: Option<seq<Byte>>) returns (r: Option<Reading>)
      modifies this`writes
      ensures writes == old(writes) + [[DataRegister]]
      ensures burst.None? ==> r.None?
      ensures burst.Some? ==> r == Measure(calibration, burst.value)
    {
      writes := writes + [[DataRegister]];
      if burst.None? {
        return None;
      }
      r := Measure(calibration, burst.value);
    }
  }

  /**
   * `BME280.__init__`: open, load the calibration, configure.  Returns None
   * when loading the calibration raises, in which case no device is built.
   */
  method NewBme280(cal1: seq<Byte>, cal2: seq<Byte>, cal3: seq<Byte>) returns (dev: Option<Bme280>)
    ensures dev.Some? <==> BlocksComplete(cal1, cal2, cal3)
    ensures dev.Some? ==>
      && fresh(dev.value)
      && dev.value.bus == I2CPort && dev.value.address == I2CAddress
      && dev.value.writes == CalibrationReadWrites + ConfigureWrites
      && DecodeCalibration(cal1, cal2, cal3) == Some(dev.value.calibration)
  {
    var d := new Bme280.Open(I2CPort, I2CAddress);
    var ok := d.LoadCalibration(cal1, cal2, cal3);
    if !ok {
      return None;
    }
    d.Configure();
    return Some(d);
  }

  /** What the service publishes as /CustomName: "Baro", or "Baro (<pressure> hPa)". */
  datatype BaroName = Baro | BaroWithPressure(pressureQ24_8: int)

  /** The published D-Bus paths that `update` writes. */
  class Bme280Service {
    const sensor: Bme280
    var connected: int
    var temperature: int
    var pressure: int
    var humidity: int
    var customName: BaroName

    /** The paths as registered by `__init__`. */
    constructor (sensor: Bme280)
      ensures this.sensor == sensor
      ensures connected == 1 && temperature == 0 && pressure == 0 && humidity == 0
      ensures customName == Baro
    {
      this.sensor := sensor;
      connected := 1;
      temperature := 0;
      pressure := 0;
      humidity := 0;
      customName := Baro;
    }

    /**
     * `update`: on a successful read publishes the reading and sets
     * /Connected to 1; when the read raises, only /Connected changes, to 0.
     * It always asks to be polled again.
     */
    method Update(burst: Option<seq<Byte>>) returns (again: bool)
      modifies this, sensor`writes
      ensures again
      ensures sensor.writes == old(sensor.writes) + [[DataRegister]]
      ensures var m := if burst.None? then None else Measure(sensor.calibration, burst.value);
        if m.Some? then
          && temperature == m.value.centiCelsius
          && pressure == m.value.pressureQ24_8
          && humidity == m.value.humidityQ22_10
          && customName == BaroWithPressure(m.value.pressureQ24_8)
          && connected == 1
        else
          && connected == 0
          && temperature == old(temperature) && pressure == old(pressure)
          && humidity == old(humidity) && customName == old(customName)
    {
      var r := sensor.Read(burst);
      if r.Some? {
        temperature := r.value.centiCelsius;
        pressure := r.value.pressureQ24_8;
        humidity := r.value.humidityQ22_10;
        customName := BaroWithPressure(r.value.pressureQ24_8);
        connected := 1;
      } else {
        connected := 0;
      }
      again := true;
    }
  }
}
