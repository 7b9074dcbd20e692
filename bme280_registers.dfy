/**
 * Decoding of the BME280's register bytes: the trimming (calibration)
 * coefficients read once at start-up and the raw 8-byte measurement burst.
 * Register addresses and layouts follow section 4.2.2 ("Trimming parameter
 * readout") and section 5.4 ("Register description") of the Bosch BME280 datasheet.
 */
module Bme280Registers {
  import opened Wrappers
  import opened Bits

  type Byte = b: int | 0 <= b < 256

  /**
   * Start of the first calibration block (dig_T1 .. dig_P9).  26 bytes are
   * requested, but only the first 24 are unpacked.
   */
  const Cal1Register: Byte := 0x88
  const Cal1Used: nat := 24
  /** The single byte holding dig_H1. */
  const Cal2Register: Byte := 0xA1
  const Cal2Length: nat := 1
  /** Start of the second humidity block (dig_H2 .. dig_H6), 7 bytes. */
  const Cal3Register: Byte := 0xE1
  const Cal3Length: nat := 7
  /** Start of the measurement burst press_msb .. hum_lsb, 8 bytes. */
  const DataRegister: Byte := 0xF7
  const DataLength: nat := 8

  // ---------------------------------------------------------------------------
  // struct.unpack formats '<H', '<h' and '<b'
  // ---------------------------------------------------------------------------

  /** Little-endian unsigned 16-bit value (struct format '<H'). */
  function U16Le(lo: Byte, hi: Byte): (r: int)
    ensures 0 <= r <= 0xFFFF
  {
    lo + 256 * hi
  }

  /** Little-endian two's-complement 16-bit value (struct format '<h'). */
  function S16Le(lo: Byte, hi: Byte): (r: int)
    ensures -0x8000 <= r <= 0x7FFF
  {
    var u := lo as int + 256 * hi as int;
    if u >= 0x8000 then u - 0x10000 else u
  }

  /**
   * '<h' reads the unsigned value modulo 2^16: it agrees with '<H' up to a
   * multiple of 65536 and is negative exactly when the sign bit (bit 7 of the
   * high byte) is set.
   */
  lemma S16LeTwosComplement(lo: Byte, hi: Byte)
    ensures (S16Le(lo, hi) - U16Le(lo, hi)) % 0x10000 == 0
    ensures S16Le(lo, hi) < 0 <==> hi >= 0x80
  {
  }

  /** Two's-complement 8-bit value (struct format '<b'). */
  function S8(b: Byte): (r: int)
    ensures -0x80 <= r <= 0x7F
    ensures (r - b as int) % 0x100 == 0
    ensures r < 0 <==> b >= 0x80
  {
    if b >= 0x80 then b as int - 0x100 else b as int
  }

  /** The two bytes, low first, that '<H' packs an unsigned 16-bit value into. */
  function EncodeU16(v: int): (Byte, Byte)
    requires 0 <= v <= 0xFFFF
  {
    (v % 256, v / 256)
  }

  /** The two bytes, low first, that '<h' packs a signed 16-bit value into. */
  function EncodeS16(v: int): (Byte, Byte)
    requires -0x8000 <= v <= 0x7FFF
  {
    EncodeU16(if v < 0 then v + 0x10000 else v)
  }

  /** '<H' is a bijection between byte pairs and [0, 65535]. */
  lemma U16RoundTrip(lo: Byte, hi: Byte, v: int)
    requires 0 <= v <= 0xFFFF
    ensures EncodeU16(U16Le(lo, hi)) == (lo, hi)
    ensures U16Le(EncodeU16(v).0, EncodeU16(v).1) == v
  {
  }

  /** '<h' is a bijection between byte pairs and [-32768, 32767]. */
  lemma S16RoundTrip(lo: Byte, hi: Byte, v: int)
    requires -0x8000 <= v <= 0x7FFF
    ensures EncodeS16(S16Le(lo, hi)) == (lo, hi)
    ensures S16Le(EncodeS16(v).0, EncodeS16(v).1) == v
  {
  }

  // ---------------------------------------------------------------------------
  // Calibration table
  // ---------------------------------------------------------------------------

  /** The 18 trimming coefficients dig_T1 .. dig_H6. */
  datatype Calibration = Calibration(
    digT1: int, digT2: int, digT3: int,
    digP1: int, digP2: int, digP3: int, digP4: int, digP5: int,
    digP6: int, digP7: int, digP8: int, digP9: int,
    digH1: int, digH2: int, digH3: int, digH4: int, digH5: int, digH6: int)
  {
    /** Each coefficient lies in the range of its register type. */
    predicate InRange()
    {
      && 0 <= digT1 <= 0xFFFF && IsS16(digT2) && IsS16(digT3)
      && 0 <= digP1 <= 0xFFFF
      && IsS16(digP2) && IsS16(digP3) && IsS16(digP4) && IsS16(digP5)
      && IsS16(digP6) && IsS16(digP7) && IsS16(digP8) && IsS16(digP9)
      && 0 <= digH1 <= 0xFF && IsS16(digH2) && 0 <= digH3 <= 0xFF
      && 0 <= digH4 <= 0xFFF && 0 <= digH5 <= 0xFFF && -0x80 <= digH6 <= 0x7F
    }
  }

  predicate IsS16(v: int)
  {
    -0x8000 <= v <= 0x7FFF
  }

  /**
   * dig_H4: the byte at 0xE4 shifted left by four, OR-ed with the low nibble
   * of the byte at 0xE5 (`(cal3[3] << 4) | (cal3[4] & 0x0F)`).
   */
  function NibbleLow12(high: Byte, shared: Byte): (r: nat)
    ensures r == high as int * 16 + shared as int % 16
    ensures r <= 0xFFF
  {
    AndNibble(shared);
    Pow2Table();
    OrDisjoint(high, shared as int % 16, 4);
    BitOr(high as int * 16, BitAnd(shared, 0x0F))
  }

  /**
   * dig_H5: the byte at 0xE6 shifted left by four, OR-ed with the high nibble
   * of the byte at 0xE5 (`(cal3[5] << 4) | ((cal3[4] >> 4) & 0x0F)`).
   */
  function NibbleHigh12(high: Byte, shared: Byte): (r: nat)
    ensures r == high as int * 16 + shared as int / 16
    ensures r <= 0xFFF
  {
    HighNibble(shared);
    Pow2Table();
    OrDisjoint(high, shared as int / 16, 4);
    BitOr(high as int * 16, BitAnd(Shr(shared, 4), 0x0F))
  }

  /** `(b >> 4) & 0x0F` is the high nibble of a byte. */
  lemma HighNibble(b: Byte)
    ensures Shr(b, 4) == b as int / 16
    ensures BitAnd(Shr(b, 4), 0x0F) == b as int / 16
  {
    Pow2Table();
    AndNibbleOfNibble(b as int / 16);
  }

  /** The shared byte at 0xE5 is recoverable from the low nibbles of dig_H4 and dig_H5. */
  lemma SharedNibbleRecovery(h4msb: Byte, shared: Byte, h5msb: Byte)
    ensures NibbleLow12(h4msb, shared) % 16 + 16 * (NibbleHigh12(h5msb, shared) % 16) == shared
  {
    var l := NibbleLow12(h4msb, shared);
    var h := NibbleHigh12(h5msb, shared);
    DivModUnique(l, 16, h4msb, shared as int % 16);
    DivModUnique(h, 16, h5msb, shared as int / 16);
  }

  /** The three blocks hold every byte that `_load_calibration` unpacks. */
  predicate BlocksComplete(cal1: seq<Byte>, cal2: seq<Byte>, cal3: seq<Byte>)
  {
    |cal1| >= Cal1Used && |cal2| >= Cal2Length && |cal3| >= Cal3Length
  }

  /**
   * The calibration table that `_load_calibration` assigns, or None when a
   * block is too short (struct.unpack or indexing raises).
   */
  function DecodeCalibration(cal1: seq<Byte>, cal2: seq<Byte>, cal3: seq<Byte>): (r: Option<Calibration>)
    ensures r.Some? <==> BlocksComplete(cal1, cal2, cal3)
  {
    if !BlocksComplete(cal1, cal2, cal3) then None
    else Some(Calibration(
      U16Le(cal1[0], cal1[1]), S16Le(cal1[2], cal1[3]), S16Le(cal1[4], cal1[5]),
      U16Le(cal1[6], cal1[7]), S16Le(cal1[8], cal1[9]), S16Le(cal1[10], cal1[11]),
      S16Le(cal1[12], cal1[13]), S16Le(cal1[14], cal1[15]), S16Le(cal1[16], cal1[17]),
      S16Le(cal1[18], cal1[19]), S16Le(cal1[20], cal1[21]), S16Le(cal1[22], cal1[23]),
      cal2[0], S16Le(cal3[0], cal3[1]), cal3[2],
      NibbleLow12(cal3[3], cal3[4]), NibbleHigh12(cal3[5], cal3[4]), S8(cal3[6])))
  }

  /**
   * The decoded coefficients lie in the ranges of their register types, and
   * the unsigned, single-byte and nibble-packed ones are these byte formulas.
   */
  lemma DecodedCoefficients(cal1: seq<Byte>, cal2: seq<Byte>, cal3: seq<Byte>)
    requires BlocksComplete(cal1, cal2, cal3)
    ensures var c := DecodeCalibration(cal1, cal2, cal3).value;
      && c.InRange()
      && c.digT1 == cal1[0] as int + 256 * cal1[1] as int
      && c.digP1 == cal1[6] as int + 256 * cal1[7] as int
      && c.digH1 == cal2[0] as int
      && c.digH3 == cal3[2] as int
      && c.digH4 == cal3[3] as int * 16 + cal3[4] as int % 16
      && c.digH5 == cal3[5] as int * 16 + cal3[4] as int / 16
      && c.digH6 == (if cal3[6] >= 0x80 then cal3[6] as int - 0x100 else cal3[6] as int)
  {
  }

  /** Every 16-bit coefficient is the '<h' / '<H' reading of its byte pair at its offset. */
  lemma DecodeCalibrationLayout(cal1: seq<Byte>, cal2: seq<Byte>, cal3: seq<Byte>)
    requires BlocksComplete(cal1, cal2, cal3)
    ensures var c := DecodeCalibration(cal1, cal2, cal3).value;
      && EncodeU16(c.digT1) == (cal1[0], cal1[1]) && EncodeS16(c.digT2) == (cal1[2], cal1[3])
      && EncodeS16(c.digT3) == (cal1[4], cal1[5]) && EncodeU16(c.digP1) == (cal1[6], cal1[7])
      && EncodeS16(c.digP2) == (cal1[8], cal1[9]) && EncodeS16(c.digP3) == (cal1[10], cal1[11])
      && EncodeS16(c.digP4) == (cal1[12], cal1[13]) && EncodeS16(c.digP5) == (cal1[14], cal1[15])
      && EncodeS16(c.digP6) == (cal1[16], cal1[17]) && EncodeS16(c.digP7) == (cal1[18], cal1[19])
      && EncodeS16(c.digP8) == (cal1[20], cal1[21]) && EncodeS16(c.digP9) == (cal1[22], cal1[23])
      && EncodeS16(c.digH2) == (cal3[0], cal3[1])
  {
    U16RoundTrip(cal1[0], cal1[1], 0);
    S16RoundTrip(cal1[2], cal1[3], 0);
    S16RoundTrip(cal1[4], cal1[5], 0);
    U16RoundTrip(cal1[6], cal1[7], 0);
    S16RoundTrip(cal1[8], cal1[9], 0);
    S16RoundTrip(cal1[10], cal1[11], 0);
    S16RoundTrip(cal1[12], cal1[13], 0);
    S16RoundTrip(cal1[14], cal1[15], 0);
    S16RoundTrip(cal1[16], cal1[17], 0);
    S16RoundTrip(cal1[18], cal1[19], 0);
    S16RoundTrip(cal1[20], cal1[21], 0);
    S16RoundTrip(cal1[22], cal1[23], 0);
    S16RoundTrip(cal3[0], cal3[1], 0);
  }

  // ---------------------------------------------------------------------------
  // Measurement burst
  // ---------------------------------------------------------------------------

  /** Uncompensated pressure, temperature and humidity ADC values. */
  datatype RawSample = RawSample(press: int, temp: int, hum: int)

  /** A 20-bit ADC value: `(msb << 12) | (lsb << 4) | (xlsb >> 4)`. */
  function Raw20(msb: Byte, lsb: Byte, xlsb: Byte): (r: nat)
    ensures r == msb as int * 4096 + lsb as int * 16 + xlsb as int / 16
    ensures r < Pow2(20)
  {
    Pow2Table();
    OrDisjoint(msb, lsb as int * 16, 12);
    OrDisjoint(msb as int * 256 + lsb as int, xlsb as int / 16, 4);
    BitOr(BitOr(Shl(msb, 12), Shl(lsb, 4)), Shr(xlsb, 4))
  }

  /** The 16-bit humidity ADC value: `(msb << 8) | lsb`. */
  function Raw16(msb: Byte, lsb: Byte): (r: nat)
    ensures r == msb as int * 256 + lsb as int
    ensures r <= 0xFFFF
  {
    Pow2Table();
    OrDisjoint(msb, lsb, 8);
    BitOr(Shl(msb, 8), lsb)
  }

  /** The bytes press_msb .. hum_lsb unpacked into the three raw values. */
  function Unpack(data: seq<Byte>): (r: RawSample)
    requires |data| >= DataLength
    ensures 0 <= r.press < 0x10_0000 && 0 <= r.temp < 0x10_0000 && 0 <= r.hum <= 0xFFFF
  {
    Pow2Table();
    RawSample(Raw20(data[0], data[1], data[2]), Raw20(data[3], data[4], data[5]), Raw16(data[6], data[7]))
  }

  /** How the sensor lays out a 20-bit value: msb, lsb and the high nibble of xlsb. */
  function Encode20(v: nat): (bytes: (Byte, Byte, Byte))
    requires v < 0x10_0000
    ensures bytes == (v / 4096, (v / 16) % 256, (v % 16) * 16)
  {
    Pow2Table();
    var mid: nat := v / 16;
    AndByte(mid);
    AndNibble(v);
    assert BitAnd(Shr(v, 4), 0xFF) == mid % 256;
    assert BitAnd(v, 0xF) == v % 16;
    (Shr(v, 12), BitAnd(Shr(v, 4), 0xFF), Shl(BitAnd(v, 0xF), 4))
  }

  /**
   * Unpacking what the sensor packs gives the value back, whatever the
   * (unused) low nibble of the xlsb byte holds.
   */
  lemma Raw20RoundTrip(v: nat, lowNibble: nat)
    requires v < 0x10_0000 && lowNibble < 16
    ensures var (msb, lsb, xlsb) := Encode20(v);
      xlsb as int + lowNibble < 256 && Raw20(msb, lsb, xlsb as int + lowNibble) == v
  {
    var (msb, lsb, xlsb) := Encode20(v);
    var q := v / 16;
    assert (xlsb as int + lowNibble) / 16 == v % 16 by {
      DivModUnique(xlsb as int + lowNibble, 16, v % 16, lowNibble);
    }
    assert msb as int == q / 256 by {
      Shift12IsShift4Then8(v);
    }
    assert q == msb as int * 256 + lsb as int;
    assert v == q * 16 + v % 16;
  }

  /** Dropping twelve bits at once is dropping four, then eight. */
  lemma Shift12IsShift4Then8(v: nat)
    ensures v / 4096 == (v / 16) / 256
  {
    var q := (v / 16) / 256;
    var r := (v / 16) % 256;
    assert v == (v / 16) * 16 + v % 16;
    assert v / 16 == q * 256 + r;
    assert v == q * 4096 + (r * 16 + v % 16);
    DivModUnique(v, 4096, q, r * 16 + v % 16);
  }

  // ---------------------------------------------------------------------------
  // Control registers: ctrl_hum, ctrl_meas and config (sections 5.4.3, 5.4.5
  // and 5.4.6 of the BME280 datasheet)
  // ---------------------------------------------------------------------------

  const CtrlHumRegister: Byte := 0xF2
  const CtrlMeasRegister: Byte := 0xF4
  const ConfigRegister: Byte := 0xF5

  datatype Oversampling = Skipped | X1 | X2 | X4 | X8 | X16

  /** A three-bit `osrs_*` field: 000 skips the measurement, 101 and above mean x16. */
  function OversamplingOf(code: nat): Oversampling
    requires code < 8
  {
    match code
    case 0 => Skipped
    case 1 => X1
    case 2 => X2
    case 3 => X4
    case 4 => X8
    case _ => X16
  }

  datatype PowerMode = Sleep | Forced | Normal

  /** The two-bit `mode` field: 00 sleep, 01 and 10 forced, 11 normal. */
  function PowerModeOf(code: nat): PowerMode
    requires code < 4
  {
    if code == 0 then Sleep else if code == 3 then Normal else Forced
  }

  /** The three-bit `t_sb` field: the standby time between normal-mode measurements, in ms. */
  function StandbyMsOf(code: nat): real
    requires code < 8
  {
    match code
    case 0 => 0.5
    case 1 => 62.5
    case 2 => 125.0
    case 3 => 250.0
    case 4 => 500.0
    case 5 => 1000.0
    case 6 => 10.0
    case _ => 20.0
  }

  /** The three-bit `filter` field: the IIR filter coefficient, 0 when the filter is off. */
  function FilterCoefficientOf(code: nat): nat
    requires code < 8
  {
    match code
    case 0 => 0
    case 1 => 2
    case 2 => 4
    case 3 => 8
    case _ => 16
  }

  /** What the three control registers select. */
  datatype SensorSettings = SensorSettings(
    humidity: Oversampling, temperature: Oversampling, pressure: Oversampling,
    mode: PowerMode, standbyMs: real, filter: nat, spi3Wire: bool)

  /**
   * `ctrl_meas` from its fields: `osrs_t` in bits 7..5, `osrs_p` in bits 4..2,
   * `mode` in bits 1..0.
   */
  function CtrlMeas(osrsT: nat, osrsP: nat, mode: nat): (b: Byte)
    requires osrsT < 8 && osrsP < 8 && mode < 4
    ensures b / 32 == osrsT && b / 4 % 8 == osrsP && b % 4 == mode
  {
    osrsT * 32 + osrsP * 4 + mode
  }

  /** Every `ctrl_meas` byte is the encoding of its three fields. */
  lemma CtrlMeasFields(b: Byte)
    ensures CtrlMeas(b / 32, b / 4 % 8, b % 4) == b
  {
  }

  /**
   * `config` from its fields: `t_sb` in bits 7..5, `filter` in bits 4..2,
   * `spi3w_en` in bit 0; bit 1 is unused and written as 0.
   */
  function Config(tSb: nat, filter: nat, spi3Wire: bool): (b: Byte)
    requires tSb < 8 && filter < 8
    ensures b / 32 == tSb && b / 4 % 8 == filter && (b % 2 == 1 <==> spi3Wire) && b / 2 % 2 == 0
  {
    tSb * 32 + filter * 4 + if spi3Wire then 1 else 0
  }

  /** The settings selected by the three control register values. */
  function SettingsOf(ctrlHum: Byte, ctrlMeas: Byte, config: Byte): SensorSettings
  {
    SensorSettings(
      OversamplingOf(ctrlHum % 8), OversamplingOf(ctrlMeas / 32), OversamplingOf(ctrlMeas / 4 % 8),
      PowerModeOf(ctrlMeas % 4), StandbyMsOf(config / 32), FilterCoefficientOf(config / 4 % 8),
      config % 2 == 1)
  }
}
