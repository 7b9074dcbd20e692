# BME280 and tank-sensor services for Venus OS, modelled in Dafny

This project models the core logic of two small Venus OS services.

**`bme280/bme280_service.py`** drives a Bosch BME280 temperature, pressure and humidity sensor over I2C.
- It reads the sensor's trimming (calibration) coefficients once.
- It configures oversampling.
- On every poll it reads the 8-byte measurement burst and runs the datasheet's integer compensation formulas.
- It publishes the results on D-Bus. When a read fails it only clears `/Connected`.

**`tank-sensor/tank_service.py`** reads lines such as `TANK2:57` or `TANK0:OFF` from a serial port.
- A router sends the payload after the prefix to one of four per-tank queues.
- Each tank process drains its queue through a small state machine.
  - Ground input (`OFF`) makes the tank inactive.
  - A level in percent makes it active. The first activation registers the tank's D-Bus service.
- The tank's settings (capacity, fluid type, name) can be written through D-Bus. Each write is validated, stored and saved.

Files:

| file | contents |
|---|---|
| `wrappers.dfy` | `Option` |
| `bits.dfy` | Python's `<<`, `>>`, `//`, `\|` and `&` on unbounded integers, with the facts about them that the decoders need |
| `bme280_registers.dfy` | the `struct` formats `<H`, `<h` and `<b`; the calibration table and its decoder; the measurement-burst unpacking; the fields of the control registers |
| `bme280_compensation.dfy` | the temperature, pressure and humidity compensation in fixed-point units |
| `bme280_driver.dfy` | the classes `Bme280` (with a log of the bytes written to the device) and `Bme280Service` (the published paths) |
| `py_text.dfy` | `str.strip`, the narrower whitespace of `int()`/`float()`, `str.startswith`, `str(int)` |
| `py_numbers.dfy` | `int(s)` and `float(s)` as partial parsers, and truncation toward zero |
| `tank_settings.dfy` | the settings records, the defaults, the back-filling done on load, and the validation of the two numeric writes |
| `tank_router.dfy` | the prefix router and the class `Router` holding the four queues |
| `tank_channel.dfy` | the per-tank state machine (`Step`/`Run`) and the class `TankProcess` |

Conventions:
- Python integers are unbounded, and so are Dafny's. Python's `>>` floors; it is modelled as Euclidean division by a positive power of two, which agrees with flooring.
- Python's `//` on line 103 may have a negative divisor, so it is written out as `Bits.FloorDiv`.
- `|` and `&` are modelled bit by bit (`Bits.BitOr`, `Bits.BitAnd`). Lemmas show that OR-ing disjoint bit ranges is addition and that masking keeps low bits.
- The compensated readings stay in the integer units the formulas produce, and the final division is treated as presentation:
  - temperature in hundredths of a degree;
  - pressure in Pa as Q24.8, that is the value before `/ 25600.0` for hPa;
  - humidity in %RH as Q22.10.
- Tank volumes and capacities are exact reals.

Notes on the code's behaviour:
- A capacity write does not recompute `/Remaining` (tank_service.py:91-102). The new capacity only takes effect with the next level payload. `TankChannel.TankProcess.OnCapacityChanged` states that the channel state is unchanged.
- A fluid-type write goes through `int(float(str(value)))`, not through an integer parse. "5.7" is therefore accepted and stores 5, and "-0.5" stores 0. `TankSettings.FluidTypeValue` states the accepted set: the finite floats strictly between -1 and 6.
- A level payload while the tank is already active does not touch `/Connected` (tank_service.py:139-144).
- The first calibration read requests 26 bytes, but only the first 24 are unpacked. A block of 24 bytes is therefore already enough (`Bme280Registers.BlocksComplete`).

## Model

| member | source | states |
|---|---|---|
| Bits.FloorDiv | bme280/bme280_service.py:103 | Python's `//` for a divisor of either sign: the remainder lies between 0 and the divisor, the divisor excluded |
| Bits.FloorQuotientUnique | bme280/bme280_service.py:103 | the floor quotient is unique, so `FloorDiv` is the only function with its contract and the pressure is determined by its inputs |
| Bits.ShrIsFloorDiv | bme280/bme280_service.py:87-88 | `x >> k` is floor division by 2^k, including for negative x |
| Bits.OrDisjoint | bme280/bme280_service.py:76-77 | OR-ing a value shifted left by k with a value below 2^k is their sum |
| Bits.AndMask | bme280/bme280_service.py:76 | masking with 2^k - 1 keeps the value modulo 2^k |
| Bme280Registers.U16Le | bme280/bme280_service.py:59 | `struct.unpack('<H')` of a byte pair lies in [0, 65535] |
| Bme280Registers.S16Le | bme280/bme280_service.py:60-71 | `struct.unpack('<h')` of a byte pair lies in [-32768, 32767] |
| Bme280Registers.S16LeTwosComplement | bme280/bme280_service.py:60-71 | `<h` agrees with `<H` modulo 2^16 and is negative exactly when bit 7 of the high byte is set |
| Bme280Registers.S8 | bme280/bme280_service.py:78 | `struct.unpack('<b')` lies in [-128, 127], agrees with the byte modulo 256, and is negative exactly when bit 7 is set |
| Bme280Registers.U16RoundTrip | bme280/bme280_service.py:59-63 | `<H` and its encoding are inverse: decoding a byte pair is v exactly when v encodes to that pair |
| Bme280Registers.S16RoundTrip | bme280/bme280_service.py:60-74 | `<h` and its encoding are inverse in both directions |
| Bme280Registers.NibbleLow12 | bme280/bme280_service.py:76 | dig_H4 = cal3[3]·16 + (cal3[4] mod 16), in [0, 4095] |
| Bme280Registers.NibbleHigh12 | bme280/bme280_service.py:77 | dig_H5 = cal3[5]·16 + (cal3[4] div 16), in [0, 4095] |
| Bme280Registers.HighNibble | bme280/bme280_service.py:77 | `(b >> 4) & 0x0F` is the high nibble of a byte |
| Bme280Registers.SharedNibbleRecovery | bme280/bme280_service.py:76-77 | the shared byte cal3[4] is recovered from the low nibbles of dig_H4 and dig_H5 |
| Bme280Registers.DecodeCalibration | bme280/bme280_service.py:54-78 | the table is produced exactly when all three blocks are long enough; otherwise loading fails |
| Bme280Registers.DecodedCoefficients | bme280/bme280_service.py:59-78 | every decoded coefficient lies in the range of its register type. dig_T1 and dig_P1 are b[i] + 256·b[i+1]. dig_H1 and dig_H3 are the raw bytes. dig_H4 and dig_H5 follow the nibble formulas. dig_H6 is the two's-complement reading of cal3[6] |
| Bme280Registers.DecodeCalibrationLayout | bme280/bme280_service.py:59-74 | every 16-bit coefficient re-encodes to the byte pair at its source offset |
| Bme280Registers.Raw20 | bme280/bme280_service.py:83-84 | `(msb << 12) \| (lsb << 4) \| (xlsb >> 4)` is msb·4096 + lsb·16 + xlsb div 16, and below 2^20 |
| Bme280Registers.Raw16 | bme280/bme280_service.py:85 | `(msb << 8) \| lsb` is msb·256 + lsb, in [0, 65535] |
| Bme280Registers.Unpack | bme280/bme280_service.py:83-85 | raw pressure and temperature are in [0, 2^20 - 1] and raw humidity is in [0, 65535] |
| Bme280Registers.Encode20 | bme280/bme280_service.py:83-84 | the sensor's byte layout of a 20-bit value: v >> 12, (v >> 4) & 0xFF, (v & 0xF) << 4 |
| Bme280Registers.Raw20RoundTrip | bme280/bme280_service.py:83-84 | unpacking the layout of v gives v back, whatever the low nibble of the third byte holds |
| Bme280Compensation.TempVar1 | bme280/bme280_service.py:87 | the datasheet's first temperature term, with Python's flooring shifts (definition; its meaning is stated through `DatasheetExample`) |
| Bme280Compensation.TempVar2 | bme280/bme280_service.py:88 | the datasheet's quadratic temperature term (definition) |
| Bme280Compensation.TFine | bme280/bme280_service.py:87-89 | t_fine, the fine temperature that pressure and humidity use (definition; see `DependsOnTemperatureOnlyThroughTFine`) |
| Bme280Compensation.CentiCelsius | bme280/bme280_service.py:90 | `(t_fine·5 + 128) >> 8` is t_fine·5/256 rounded to the nearest integer |
| Bme280Compensation.PressureVar2 | bme280/bme280_service.py:92-95 | the second pressure term, built from dig_P4..dig_P6 (definition) |
| Bme280Compensation.PressureDivisor | bme280/bme280_service.py:92-97 | the value tested against zero on line 99 and used as the divisor on line 103 (definition; see `ZeroP1GivesZeroPressure`) |
| Bme280Compensation.PressureDividend | bme280/bme280_service.py:102-103 | the dividend of the floor division on line 103 (definition) |
| Bme280Compensation.PressureFinish | bme280/bme280_service.py:104-106 | the final correction with dig_P7..dig_P9, giving Pa in Q24.8 (definition) |
| Bme280Compensation.Pressure | bme280/bme280_service.py:92-106 | a zero divisor gives pressure 0 with no division; otherwise the result is built from the floor quotient of the dividend by the possibly negative divisor |
| Bme280Compensation.ZeroP1GivesZeroPressure | bme280/bme280_service.py:97-100 | dig_P1 = 0 forces the divisor to 0 and the pressure to 0 |
| Bme280Compensation.DatasheetExample | bme280/bme280_service.py:87-106 | on the worked example of the BMP280 datasheet, the formulas give 25.08 °C and 100653.25 Pa |
| Bme280Compensation.HumidityUnclamped | bme280/bme280_service.py:109-113 | the humidity accumulator before the clamp (definition; see `HumidityUnclampedWhenInRange`) |
| Bme280Compensation.Clamp | bme280/bme280_service.py:114 | the clamped value lies in [0, 419430400], is the identity on in-range values, and saturates at both ends |
| Bme280Compensation.Humidity | bme280/bme280_service.py:109-115 | `h >> 12` of the clamped accumulator lies in [0, 102400], that is 0 to 100 %RH |
| Bme280Compensation.HumidityUnclampedWhenInRange | bme280/bme280_service.py:114-115 | an in-range accumulator is only shifted, not clamped |
| Bme280Compensation.HumiditySaturates | bme280/bme280_service.py:114-115 | an accumulator above the bound reads exactly 100 %RH, and one below zero reads 0 %RH |
| Bme280Compensation.Compensate | bme280/bme280_service.py:87-115 | humidity within 0..100 %RH, and pressure 0 exactly as the divisor guard says |
| Bme280Compensation.DependsOnTemperatureOnlyThroughTFine | bme280/bme280_service.py:87-109 | two raw temperatures with the same t_fine give the same reading |
| Bme280Compensation.Measure | bme280/bme280_service.py:80-117 | a burst shorter than 8 bytes fails, and any other gives a reading with humidity in 0..100 %RH |
| Bme280Registers.CtrlMeas | bme280/bme280_service.py:44 | the ctrl_meas byte built from osrs_t, osrs_p and mode decodes back to those three fields |
| Bme280Registers.CtrlMeasFields | bme280/bme280_service.py:44 | every ctrl_meas byte is the encoding of its three fields, so the encoding is onto |
| Bme280Registers.Config | bme280/bme280_service.py:45 | the config byte built from t_sb, filter and spi3w_en decodes back to those fields, with the unused bit 1 clear |
| Bme280Driver.LastWrite | bme280/bme280_service.py:42-48 | the value a register holds after a write log: None exactly when it was never written, otherwise the value of a write to it that no later write to it follows |
| Bme280Driver.LastWriteAfter | bme280/bme280_service.py:47-48 | one more two-byte write changes only the register it names |
| Bme280Driver.ConfiguredBytes | bme280/bme280_service.py:43-45 | the bytes 0x05, 0xB7, 0x00 select x16 oversampling of humidity, temperature and pressure, normal mode, 0.5 ms standby, filter off, SPI 3-wire off |
| Bme280Driver.ConfigureSelects | bme280/bme280_service.py:42-45 | after the three configuration writes, whatever came before, the control registers select those settings, and the ctrl_hum write is followed by a ctrl_meas write, which is what makes it take effect |
| Bme280Driver.Bme280.Open | bme280/bme280_service.py:24-40 | the device is bound to its bus and address, and nothing is written yet |
| Bme280Driver.Bme280.WriteByte | bme280/bme280_service.py:47-48 | one two-byte write is appended to the device log |
| Bme280Driver.Bme280.LoadCalibration | bme280/bme280_service.py:54-78 | writes the three register addresses; succeeds exactly when the blocks are complete, and then holds the decoded table |
| Bme280Driver.Bme280.Configure | bme280/bme280_service.py:42-45 | exactly the three pairs (0xF2,0x05), (0xF4,0xB7), (0xF5,0x00), in order; afterwards the registers select x16 oversampling on all three channels in normal mode, and the humidity setting is latched |
| Bme280Driver.Bme280.Read | bme280/bme280_service.py:80-85 | writes register 0xF7 and compensates the burst with the stored table; a raising read gives no reading |
| Bme280Driver.NewBme280 | bme280/bme280_service.py:24-31 | a device exists exactly when the calibration blocks are complete. It is then fresh, its log is the three calibration selects followed by the three configuration writes, and it holds the decoded table |
| Bme280Driver.Bme280Service.constructor | bme280/bme280_service.py:121-138 | the paths start at Connected 1, zero readings, and name "Baro" |
| Bme280Driver.Bme280Service.Update | bme280/bme280_service.py:142-162 | a good read publishes all readings, the name with the pressure, and Connected 1. A failed read sets only Connected to 0 and leaves Temperature, Pressure, Humidity and CustomName unchanged. It always returns true |
| PyText.StripLeft | tank-sensor/tank_service.py:188 | the result is a suffix, it does not start with a character of the given set, and only such characters were dropped |
| PyText.StripRight | tank-sensor/tank_service.py:188 | the result is a prefix, it does not end with a character of the given set, and only such characters were dropped |
| PyText.Strip | tank-sensor/tank_service.py:188 | `str.strip()`: the result is a slice of the input that neither starts nor ends with `str.isspace()` whitespace, and everything outside the slice is such whitespace |
| PyNumbers.ParseSigned | tank-sensor/tank_service.py:137 | an optional sign and a digit group with single underscores, the integer literal that `int()` accepts (definition; see `ParseIntOfDecimal`) |
| PyNumbers.ParseInt | tank-sensor/tank_service.py:137 | `int(s)`: `ParseSigned` of the text without surrounding space, tab, newline, vertical tab, form feed or carriage return; separators 0x1C..0x1F are not skipped (definition; see `ParseIntOfDecimal` and `ParseIntRejectsWord`) |
| PyNumbers.ParseFloat | tank-sensor/tank_service.py:80 | `float(s)`: the same whitespace and sign, then "inf"/"infinity"/"nan" in any case, or a decimal mantissa with an optional exponent (definition; see `ParseFloatOfDecimal`, `ParseFloatInf`, `ParseFloatRejectsWord`) |
| PyNumbers.Trunc | tank-sensor/tank_service.py:80 | `int()` of a float truncates toward zero |
| PyNumbers.ParseIntOfDecimal | tank-sensor/tank_service.py:137 | `int(str(i)) == i` for every integer |
| PyNumbers.ParseIntRejectsWord | tank-sensor/tank_service.py:137 | a word that starts with neither a sign nor a digit is not an integer |
| PyNumbers.ParseFloatRejectsWord | tank-sensor/tank_service.py:80 | a word that starts with none of a sign, digit, point, exponent mark or the first letter of "inf" or "nan" is not a float |
| PyNumbers.MantissaRejectsWord | tank-sensor/tank_service.py:80 | a mantissa that starts with neither a digit nor a point is malformed |
| PyNumbers.ParseFloatOfDecimal | tank-sensor/tank_service.py:93 | `float(str(i))` is i for every integer |
| PyNumbers.ParseFloatInf | tank-sensor/tank_service.py:93 | `float("inf")` is positive infinity |
| PyNumbers.ParseFloatFiveSeven | tank-sensor/tank_service.py:80 | `float("5.7")` is 5.7 |
| PyNumbers.ParseFloatOneHalf | tank-sensor/tank_service.py:93 | `float("0.5")` is 0.5 |
| TankSettings.LoadSettings | tank-sensor/tank_service.py:33-44 | no stored settings give the defaults. Otherwise the result has at least four tanks, the stored entries keep their positions and values, and each appended entry k is default k |
| TankSettings.BackFillUnique | tank-sensor/tank_service.py:38-40 | the back-filled list is determined by what was stored |
| TankSettings.FullListKept | tank-sensor/tank_service.py:38-41 | four or more stored tanks are kept exactly |
| TankSettings.FluidTypeValue | tank-sensor/tank_service.py:78-81 | accepted exactly when `float()` yields a finite x with -1 < x < 6; the stored value is in 0..5 and is x truncated toward zero |
| TankSettings.FluidTypeOfDecimal | tank-sensor/tank_service.py:80-81 | writing integer n is accepted exactly when 0 ≤ n ≤ 5, and stores n; so 6 is rejected and 5 accepted |
| TankSettings.FractionalFluidTypeTruncated | tank-sensor/tank_service.py:80-81 | "5.7" is accepted and stores 5 |
| TankSettings.SeparatorPaddedFluidTypeRefused | tank-sensor/tank_service.py:78-81 | "\x1f3" is refused, because `float()` does not skip the 0x1F separator |
| TankSettings.CapacityValue | tank-sensor/tank_service.py:93-94 | an accepted capacity is the finite `float()` of the text and is positive |
| TankSettings.CapacityAcceptsPositive | tank-sensor/tank_service.py:93-94 | every finite positive reading is accepted unchanged |
| TankSettings.CapacityOfDecimal | tank-sensor/tank_service.py:93-94 | writing integer n is accepted exactly when n > 0, so -1 is rejected |
| TankSettings.FractionalCapacityAccepted | tank-sensor/tank_service.py:93-94 | "0.5" is accepted and stores 0.5 |
| TankSettings.CapacityAcceptedAsWritten | tank-sensor/tank_service.py:93-94 | the check as written accepts only texts that `float()` parses to something other than NaN |
| TankSettings.CapacityCheckDiffersOnlyOnInfinity | tank-sensor/tank_service.py:93-94 | the check as written accepts everything the intended check accepts, plus exactly positive infinity |
| TankSettings.InfiniteCapacityAcceptedAsWritten | tank-sensor/tank_service.py:93-94 | "inf" is accepted as written and refused by the intended check |
| TankRouter.Prefix | tank-sensor/tank_service.py:191 | every prefix `TANK{i}:` has six characters |
| TankRouter.PrefixesExclusive | tank-sensor/tank_service.py:190-195 | no line starts with two different channel prefixes |
| TankRouter.RouteFrom | tank-sensor/tank_service.py:190-195 | a routed line is the channel's prefix followed by the payload; no route means no prefix matches |
| TankRouter.RouteCharacterized | tank-sensor/tank_service.py:190-195 | a line goes to channel i with payload rest exactly when it is `TANK{i}:` followed by rest, with i < 4 |
| TankRouter.Route | tank-sensor/tank_service.py:190-195 | the channel and payload of a stripped line (definition; see `RouteCharacterized`) |
| TankRouter.Deliver | tank-sensor/tank_service.py:188-195 | the four queues after one raw line is stripped and routed; there are still four (see `DeliverOnlyRouted`) |
| TankRouter.DeliverAll | tank-sensor/tank_service.py:185-195 | the four queues after a sequence of raw lines, one after the other; there are still four (see `DeliverAllInOrder`) |
| TankRouter.DeliverOnlyRouted | tank-sensor/tank_service.py:188-195 | only the routed queue grows, and it gains the payload at its end; an unmatched line changes no queue |
| TankRouter.DeliverAllInOrder | tank-sensor/tank_service.py:185-195 | after any sequence of lines, each queue is its old contents followed by its own payloads in arrival order |
| TankRouter.Router.constructor | tank-sensor/tank_service.py:168 | four empty queues |
| TankRouter.Router.Dispatch | tank-sensor/tank_service.py:188-195 | the prefix loop with `break` delivers the stripped line as the router specifies |
| TankRouter.Router.Pump | tank-sensor/tank_service.py:185-199 | reading lines one by one delivers them all, in order |
| TankChannel.NewPaths | tank-sensor/tank_service.py:64-116 | the service name, DeviceInstance 20 + id, ProductName, Connected 1, Level 0, Remaining 0, Status 0, and the settings' fluid type, capacity and name |
| TankChannel.LevelOf | tank-sensor/tank_service.py:137-138 | a level is an integer `int()` accepts, in 0..100 |
| TankChannel.Step | tank-sensor/tank_service.py:127-154 | the channel state after one payload: `OFF`, a level in 0..100, or noise (definition; see the lemmas below) |
| TankChannel.Run | tank-sensor/tank_service.py:126-154 | the channel state after a batch of payloads taken in queue order (definition; see `RunAppend`, `RunConsistent`, `RegisteredAtMostOnce`) |
| TankChannel.OffDeactivates | tank-sensor/tank_service.py:129-134 | `OFF` always leaves the channel inactive. An active channel with a service gets Connected 0. An inactive channel is unchanged, so repeating `OFF` changes nothing |
| TankChannel.LevelPublished | tank-sensor/tank_service.py:136-151 | a level payload activates the channel and sets Level, Remaining = level/100·capacity and Status 0. It sets Connected 1 on activation and leaves it alone when already active |
| TankChannel.OffIsNotALevel | tank-sensor/tank_service.py:129-137 | "OFF" is not an integer |
| TankChannel.NoiseIgnored | tank-sensor/tank_service.py:135-154 | a payload that is neither `OFF` nor a level changes nothing |
| TankChannel.OutOfRangeIsNoise | tank-sensor/tank_service.py:137-138 | "101" is not a level |
| TankChannel.WordIsNoise | tank-sensor/tank_service.py:137-154 | "abc" is not a level |
| TankChannel.SeparatorPaddedIsNoise | tank-sensor/tank_service.py:137-154 | "\x1c42" is not a level, because `int()` does not skip the 0x1C separator |
| TankChannel.StepConsistent | tank-sensor/tank_service.py:130-144 | an active channel always has its service |
| TankChannel.StepKeepsRegistration | tank-sensor/tank_service.py:139-144 | once created, the service is never dropped, and its registration does not change |
| TankChannel.StepCreatesOnlyFromNothing | tank-sensor/tank_service.py:139-142 | a service appears only where there was none, registered from the current settings, and the channel is then active |
| TankChannel.RunAppend | tank-sensor/tank_service.py:126-127 | draining two batches one after the other equals draining their concatenation |
| TankChannel.RunConsistent | tank-sensor/tank_service.py:126-144 | consistency holds after any batch |
| TankChannel.RegisteredAtMostOnce | tank-sensor/tank_service.py:139-144 | along any sequence of payloads the service is created at most once, and never if it already exists; an existing registration is kept |
| TankChannel.TankProcess.constructor | tank-sensor/tank_service.py:59-62 | the process starts inactive, without a service, with the back-filled settings |
| TankChannel.TankProcess.CreateService | tank-sensor/tank_service.py:64-118 | the service is registered from this tank's current settings |
| TankChannel.TankProcess.HandleMessage | tank-sensor/tank_service.py:127-154 | one payload changes the channel state as the state machine specifies and leaves the settings alone |
| TankChannel.TankProcess.CheckQueue | tank-sensor/tank_service.py:123-157 | draining the queue is the left fold of the single-payload step, in FIFO order; it returns true |
| TankChannel.TankProcess.OnFluidTypeChanged | tank-sensor/tank_service.py:78-89 | accepted exactly when the value names a fluid type; then only this tank's fluid type changes and one save is recorded. A rejection changes and saves nothing. The channel state is untouched |
| TankChannel.TankProcess.OnCapacityChanged | tank-sensor/tank_service.py:91-102 | accepted exactly when the value is a positive finite number; then only this tank's capacity changes and one save is recorded. A rejection changes and saves nothing. Remaining is not recomputed |
| TankChannel.TankProcess.OnCustomNameChanged | tank-sensor/tank_service.py:104-109 | always accepted; only this tank's name changes and one save is recorded |

## Left out

- I2C access, D-Bus, GLib and the serial port are left out.
  - The `/dev/i2c-*` device, `ioctl` and the bytes read come in as parameters. Writes are recorded in `Bme280.writes`.
  - `VeDbusService` path registration and the GLib main loop and timers are not modelled. Published paths are record or class fields.
  - The serial port, `in_waiting`, UTF-8 decoding and the sleeps are not modelled. Lines come in as strings.
- Concurrency is left out. The four `multiprocessing` processes and their queues become plain sequences. The router's queues and a process's pending payloads are separate parameters, with no interleaving.
- Each tank process holds its own copy of the settings and saves all four entries, so processes can overwrite each other's saves. This race is not modelled.
- Files are left out. Reading and writing the settings JSON is not modelled. A save is recorded as a snapshot of the whole settings list in `TankProcess.saves`. A missing or unreadable file, or one without a `tanks` key, is the `None` input of `LoadSettings`. Entries that lack a key are not modelled.
- Floating point is left out.
  - The BME280 floats (`/ 100.0`, `/ 25600.0`, `/ 1024.0`, `round(…, 1)`) are not modelled. The integer results are published instead (centi-°C, Q24.8 Pa, Q22.10 %RH).
  - `BaroWithPressure` stands for the text `Baro (<pressure> hPa)`.
  - Tank capacities and volumes are exact reals.
  - `float()` parses to exact reals. Rounding to the nearest double is not modelled.
- Text handling is simplified. Whitespace and digits are ASCII only. Python also accepts Unicode digits and spaces in `int()`/`float()`/`strip()`. Within ASCII, `str.strip()` drops `str.isspace()` characters (space, 9..13 and the separators 28..31), while `int()` and `float()` skip only space and 9..13; both sets are modelled.
- Logging is left out: `print` and the `FLUID_TYPES` display lookup (tank_service.py:85, 120).
- `TankChannel.TankProcess.CreateService` does not model the half-built service that a raising `create_service` would leave behind. The exception is swallowed at tank_service.py:153.
- `TankChannel.TankProcess.OnFluidTypeChanged` does not model the change `vedbus` makes to the path's own value after a write is accepted; the same holds for `OnCapacityChanged` and `OnCustomNameChanged`. That update is done by the foreign library, so the published `fluidType`, `capacity` and `customName` keep their registered values.
- `Bme280Driver.Bme280.LoadCalibration` leaves the coefficients unchanged when a block is too short. The source has assigned some of them before it raises, but the half-built object is never used (the constructor raises).
- `Bme280Driver.Bme280.calibration` holds the 18 `dig_*` attributes as one record field, not as 18 separate fields.
- `Bme280Driver.Bme280Service.Update` takes the read's outcome as a parameter: None stands for a read that raises. Any other exception on the publishing path is not modelled.
- `TankSettings.CapacityValue` rejects positive infinity, which the code accepts (see Findings). `TankChannel.TankProcess.OnCapacityChanged` uses this intended check.
- `TankChannel.TankProcess.OnCapacityChanged` refuses "inf", which the code accepts and stores as the capacity. The state after that write is not modelled: the infinite capacity itself, the infinite `/Remaining` that the next level payload publishes, and the NaN it publishes at level 0. Capacities are exact reals, which cannot hold infinity.

## Findings

| source | as written | input that shows it | evidently intended | confidence | as-written member | corrected member |
|---|---|---|---|---|---|---|
| tank-sensor/tank_service.py:93-94 | the capacity check `float(str(value)) > 0` lets positive infinity through, because `float('inf') > 0` holds; the next level payload then publishes an infinite Remaining, or NaN at level 0 | a capacity write of "inf" | a capacity must be a finite number greater than zero | medium, not executed | TankSettings.CapacityAcceptedAsWritten (shown by TankSettings.InfiniteCapacityAcceptedAsWritten) | TankSettings.CapacityValue (related by TankSettings.CapacityCheckDiffersOnlyOnInfinity) |
