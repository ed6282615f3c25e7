# HomeSpan LED controller: lighting services and identify routine

A Dafny model of the accessory services of an ESP32-C3 HomeKit lighting
controller built on the HomeSpan library:

- `DEV_DimmableLED` turns the On and Brightness characteristics into one PWM
  duty (`power × brightness`), at construction from the committed values and
  on every `update()` from the new values.
- `DEV_RgbLED` resolves On, Hue, Saturation and Brightness one by one (pending
  value if that characteristic is updated, committed value otherwise), converts
  HSV to RGB with the library's `LedPin::HSVtoRGB`, gates by power, scales by
  100 and truncates to three integer duties. `restoreState()` (run by the
  constructor) does the same from committed values only.
- `DEV_Identify` blinks the status LED `nBlinks` times on an identify request:
  LOW (LED on), 250 ms, HIGH (LED off), 250 ms, per blink.

Files:

- `homespan.dfy` (module `HomeSpan`): what the services use from the library.
  A `Characteristic<T>` holds a committed value and an optional pending value;
  `updated()` holds when a value is pending. `getNewVal()` is taken to return
  the pending value when there is one and the committed value otherwise; this
  is an assumption about the library, whose source is not part of this model.
  `HsvToRgb` is the type of converters that map hue in [0, 360] and
  saturation and value in [0, 1] to components in [0, 1]; that range is all
  the model knows of `LedPin::HSVtoRGB`.
- `dev_led.dfy` (module `DevLed`): the classes `DimmableLed` and `RgbLed`.
  Each LedPin is an integer field holding the last duty set on it. The duty
  formulas are the functions `DimmableDuty`, `ChannelDuty` and `RgbDuties`.
- `dev_identify.dfy` (module `DevIdentify`): the class `Identify`, a `Board`
  that records every `digitalWrite` with its time and a clock that only
  `delay` advances, and `BlinkTrace`, the closed-form sequence of writes that
  `update()` must produce.

Hue is taken in [0, 360], HomeSpan's default range for the Hue
characteristic. Saturation is in [0, 100]. Both Brightness characteristics
are in [5, 100] (`setRange(5, 100, 1)`). The framework keeps these ranges
(committed and pending values alike); the model states them as the classes'
`Valid()` invariants and as constructor preconditions on stored values. The
independent, per-characteristic resolution in the RGB `update()` is kept as
the code has it: a pending hue alone is combined with the committed power,
saturation and brightness.

## Model

| member | source | states |
|---|---|---|
| `HomeSpan.Characteristic.GetNewVal` | firmware/XIAO_ESP32C3/DEV_LED.h:76 | the new value is the pending value when the characteristic is updated and the committed value otherwise |
| `HomeSpan.NewCharacteristic` | firmware/XIAO_ESP32C3/DEV_LED.h:31-32 | a characteristic created with storage enabled starts from the stored value if there is one, else from its initial value, with nothing pending |
| `DevLed.TruncToInt` | firmware/XIAO_ESP32C3/DEV_LED.h:134-136 | float-to-int conversion truncates toward zero: for x >= 0 the result is the whole part of x, for x < 0 it is minus the whole part of -x |
| `DevLed.DimmableDuty` | firmware/XIAO_ESP32C3/DEV_LED.h:46 | `p * l` is the brightness when on and 0 when off; for a brightness in [5, 100] the duty is non-zero exactly when on, and is 0 or in [5, 100] |
| `DevLed.ChannelDuty` | firmware/XIAO_ESP32C3/DEV_LED.h:204-206 | `p * c * 100` truncated is 0 when off; for c in [0, 1] it lies in [0, 100] and, when on, is the whole part of 100·c |
| `DevLed.RgbDuties` | firmware/XIAO_ESP32C3/DEV_LED.h:201-206 | S and V are divided by 100 before conversion; power off gives (0, 0, 0) whatever H, S, V; in-range inputs give three duties in [0, 100], each the whole part of 100 times the converter's component when on |
| `DevLed.DimmableLed.constructor` | firmware/XIAO_ESP32C3/DEV_LED.h:29-47 | On defaults to off and Brightness to 50 unless stored; the pin is set to committed power × committed brightness, which is 0 or in [5, 100] |
| `DevLed.DimmableLed.Update` | firmware/XIAO_ESP32C3/DEV_LED.h:53-78 | returns true; the pin gets new power × new brightness, 0 when the new power is off and otherwise in [5, 100]; with nothing pending it equals the constructor's duty; no characteristic changes |
| `DevLed.RgbLed.constructor` | firmware/XIAO_ESP32C3/DEV_LED.h:99-120 | On off, Hue 0, Saturation 0, Brightness 100 unless stored; the pins are set from the committed values as restoreState does, all in [0, 100] |
| `DevLed.RgbLed.RestoreState` | firmware/XIAO_ESP32C3/DEV_LED.h:125-141 | the three pins get the duties of the committed H, S, V and power: in [0, 100], and (0, 0, 0) when the committed power is off |
| `DevLed.RgbLed.Update` | firmware/XIAO_ESP32C3/DEV_LED.h:147-218 | returns true; each characteristic resolves on its own to pending-if-updated-else-committed; the pins get the duties of the resolved values, in [0, 100], (0, 0, 0) when the resolved power is off; with nothing pending the result equals restoreState's; no characteristic changes |
| `DevLed.RgbRestoreAfterCommitMatchesUpdate` | firmware/XIAO_ESP32C3/DEV_LED.h:125-215 | once the framework commits the pending values, restoreState would set exactly the duties that update set |
| `DevLed.DimmableRestoreAfterCommitMatchesUpdate` | firmware/XIAO_ESP32C3/DEV_LED.h:44-76 | once the framework commits, the constructor's restore would set exactly the duty that update set |
| `DevLed.PendingHueAloneUsesCommittedRest` | firmware/XIAO_ESP32C3/DEV_LED.h:164-198 | a pending hue with nothing else pending is combined with the committed power, saturation and brightness |
| `DevLed.PrimaryAtFullSaturation` | firmware/XIAO_ESP32C3/DEV_LED.h:201-206 | if the converter maps hue h at full saturation and value to pure red, green or blue, the LED at that hue, S = V = 100 and power on shows (100,0,0), (0,100,0) or (0,0,100) |
| `DevIdentify.BlinkTrace` | firmware/XIAO_ESP32C3/DEV_Identify.h:74-79 | n blinks make exactly 2n writes |
| `DevIdentify.BlinkTraceAt` | firmware/XIAO_ESP32C3/DEV_Identify.h:74-79 | write k goes to the status pin, is LOW for even k and HIGH for odd k (starting LOW, alternating) and happens 250·k ms after the start |
| `DevIdentify.BlinkTraceEndsHigh` | firmware/XIAO_ESP32C3/DEV_Identify.h:77-78 | after a positive number of blinks the last write is HIGH (LED off), 250 ms before the routine ends |
| `DevIdentify.BlinkTraceCounts` | firmware/XIAO_ESP32C3/DEV_Identify.h:74-79 | n blinks hold exactly n LOW writes and n HIGH writes |
| `DevIdentify.Identify.constructor` | firmware/XIAO_ESP32C3/DEV_Identify.h:51 | nBlinks is stored at construction; it is a constant field, so update cannot change it |
| `DevIdentify.Identify.Update` | firmware/XIAO_ESP32C3/DEV_Identify.h:68-83 | returns true; appends exactly the blink sequence of max(nBlinks, 0) blinks on the status pin (nothing when nBlinks <= 0) and advances the clock by 500 ms per blink |
| `DevIdentify.IdentifyThreeBlinks` | firmware/XIAO_ESP32C3/DEV_Identify.h:68-83 | with nBlinks = 3 on a fresh board: six writes, all to the status pin, first LOW, last HIGH, 1500 ms in all |

## Left out

- Logging (`Serial.print`, `Serial.printf`, `LOG1`, `sprintf` into `cBuf`): diagnostic output only; it does not affect any pin.
- `LedPin::HSVtoRGB` internals: library code that is not part of this model; only its [0, 1] output range is assumed, so no result depends on a particular sector algorithm.
- Floating-point rounding: H, S, V and the converter's output are `real`; `p * r * 100` is exact before the truncation, so an IEEE product just below a whole number is not modelled.
- HomeSpan characteristic machinery: storage is reduced to an optional stored value per characteristic given to the constructor; `setRange` enforcement and the commit of pending values after `update()` belong to the framework (commit appears only as `Characteristic.Commit`, used by the lemmas).
- Hardware: `LedPin` (PWM setup and output) is reduced to the last duty set per channel; `pinMode(..., OUTPUT)` in the identify constructor has no counterpart; `digitalWrite` and `delay` are recorded on a `Board` trace and clock rather than performed.
- `homeSpan.getStatusPin()`: the status pin is a parameter of `Identify.Update`.
- Accessory-information characteristics (Name, Manufacturer, SerialNumber, Model, FirmwareRevision, Identify): registration only, no behaviour.
- 32-bit `int` limits: the loop counter stays below `nBlinks`, so it cannot overflow; the clock is unbounded.
- `RgbLed.brightness` is modelled as a real in [5, 100], although the source's Brightness characteristic only takes whole numbers (step 1, as the dimmable LED's `Characteristic<int>` has it): the model admits fractional values the framework never delivers, and every property proved holds for them too.
