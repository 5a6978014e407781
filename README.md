# GPS speedometer dashboard: the per-pass display policy

This project models the dashboard loop of a CircuitPython GPS speedometer. Every pass of
the loop in `main.py` reads a BME280 sensor and pumps a GPS driver, then runs a
once-per-second fix gate and writes twelve text labels on the screen built by `ui.py`. Each
label has its own policy: write it, hold its text when the value is missing, or fall back
to zero.

The model has four modules:

- `Wrappers` (`wrappers.dfy`): the `Option` type. Python's `None` is `None`.
- `Format` (`format.dfy`): the pure text formats of the `ui.py` setters, as functions on
  integers and strings.
  - `Str` is `str(n)`.
  - `PadLeft(Str(n), '0', w)` is `"{:0>w}".format(n)`.
  - Each label format is a function built from those two.
  - The lemmas after each format prove its shape and read its numbers back.
- `Screen` (`screen.dfy`): the label texts.
  - `Labels` is a value holding all twelve texts.
  - `Frame` says, per label, the text one pass writes, or that the pass leaves the label alone.
  - `Apply` writes a frame onto the labels; `Then` composes two frames.
  - The class `Ui` holds one field per label. Its constructor sets the placeholder texts of
    `main_screen`. Each setter method overwrites exactly the label or labels its Python
    counterpart updates.
- `MainLoop` (`mainloop.dfy`): the loop.
  - A `TickInput` is everything from outside that one pass sees: the sensor outcome, the GPS
    pump outcome, the clock and the free memory.
  - `Outcome` says how a pass ends: skipped at the `continue`, rendered up to the sleep, or
    halted by an exception nothing catches.
  - `RenderFrame` says which labels a pass writes, and with what.
  - `Step` gives the state after a pass; `Run` folds `Step` over a finite sequence of passes.
  - The class `Dashboard` has a `Tick` method that makes the setter calls in `main.py`'s
    order. `Tick` is proved to realise `Step` and `Outcome`.
  - `RunLoop` is the `while` loop, proved to realise `Run`.
  - To keep each proof small, the loop body is split along the source's own blocks:
    `RenderBme` is lines 42-46, `RenderPosition` 58-65, `RenderFixInfo` 66-73 and
    `RenderStatus` 66-75.

How the inputs are represented:

- Floating-point values enter the model already rounded or already formatted.
  - `round(temp)`, `round(humi)`, `round(press * 0.75)` and `round(speed_knots * 1.852)` are
    integers.
  - The `.6f` coordinates and the `.1f` altitude are strings.
  - The zero fallback of `set_coord_stat(0, 0)` is `"0.000000"`.
- `time.monotonic()` is a `real` input and `mem_free()` an integer input.
- `gc.collect()` and `time.sleep(1)` do not change any modelled state. What is recorded is
  whether a pass reached the sleep: outcome `Rendered`, counted as `sleeps` in a run.
- `chr(0176)` is taken as CircuitPython reads the literal `0176`: code point 176, the
  degree sign U+00B0.

Three points of the loop's order that the model follows exactly:

- `set_altitude` runs inside the same `try` as `set_bme_values`, after it
  (`main.py:42-46`). A `ValueError` in the first three reads therefore also holds the
  altitude, and the altitude is written only on a complete read
  (`MainLoop.AltitudeOnlyWithBme`).
- The `continue` at `main.py:55-56` skips more than the GPS labels. It also skips
  `collect()`, the counter, the memory status and `time.sleep(1)`
  (`MainLoop.SkippedPassHoldsGpsLabels`, `MainLoop.StatusRule`).
- The sensor is read before the GPS is pumped (`main.py:42-51`).

## Model

| member | source | states |
|---|---|---|
| Format.NatStr | ui.py:214 | `str(n)` of a natural number: its decimal digits, most significant first |
| Format.Str | ui.py:214 | `str(n)` of any integer: a minus sign before the digits of a negative number |
| Format.PadLeft | ui.py:142 | `"{:0>w}"`: the fill repeated up to width w before the text, and nothing when the text is already that long |
| Format.Pad2 | ui.py:152-153 | `"{:0>2}".format(n)` |
| Format.CounterText | ui.py:141-142 | the counter label: `str(n)` zero-padded to six |
| Format.TimeText | ui.py:151-153 | the time label: two-wide hours, ":", two-wide minutes |
| Format.SatText | ui.py:213-214 | the satellites label: "SAT:" and `str(n)` |
| Format.FixQualityText | ui.py:216-217 | the fix-quality label: "FQU:" and `str(n)` |
| Format.TempText | ui.py:156 | the temperature label: `str(round(temp))` and the degree sign |
| Format.HumiText | ui.py:157 | the humidity label: `round(humi)` and "%" |
| Format.PressText | ui.py:158 | the pressure label: `round(press * 0.75)` with no suffix |
| Format.SpeedText | ui.py:160-161 | the speed label: the rounded km/h zero-padded to two |
| Format.AltText | ui.py:219-220 | the altitude label: "ALT:" and the one-decimal rendering |
| Format.LatText | ui.py:210 | the latitude label: "LAT:", the six-decimal rendering, the degree sign |
| Format.LonText | ui.py:211 | the longitude label: "LON:", the six-decimal rendering, the degree sign |
| Format.RamStatus | main.py:75 | the status text: "RAM:", `str(mem_free())`, "B" |
| Screen.Apply | ui.py:141-220 | each label a frame has a text for takes that text; every other label keeps its own |
| Screen.Then | ui.py:141-220 | of two successive writes to a label the later one wins; a label neither writes stays unwritten |
| Screen.InitialLabels | ui.py:70-204 | the twelve placeholder texts `main_screen` gives the labels |
| Format.NatStrShape | ui.py:214 | `str(n)` of a natural number is a non-empty digit string with no leading zero unless it is "0" |
| Format.StrShape | ui.py:214 | `str(n)` is a decimal numeral, signed exactly when `n` is negative |
| Format.NatStrValue | ui.py:214 | the digits of `str(n)` have the value `n` |
| Format.StrRoundTrip | ui.py:214 | reading `str(n)` back as a decimal gives `n` for every integer |
| Format.StrInjective | ui.py:214 | different integers render as different strings |
| Format.RepeatShape | ui.py:142 | the fill run has the requested length and consists only of the fill character |
| Format.PadLeftShape | ui.py:142 | `{:0>w}` gives a string of length max(len, w), never truncates, ends with the original text, and has only the fill character before it |
| Format.ZerosValue | ui.py:142 | a run of '0' characters is a digit string of value 0 |
| Format.LeadingZerosValue | ui.py:142 | leading zeros do not change the value of a digit string |
| Format.ZeroPadValue | ui.py:142 | zero-padding a non-negative number keeps it a digit string of the same value |
| Format.StrLength | ui.py:142 | a number below 10^k has at most k digits |
| Format.Pad2Value | ui.py:152-153 | `{:0>2}` is at least two characters long, exactly two below 100, and keeps the value of a non-negative number |
| Format.CounterTextValue | ui.py:141-142 | the counter text is at least six characters long, exactly six below 10^6, and keeps the value of a non-negative count |
| Format.CounterOfConstant | ui.py:141-142 | `set_counter(9856)` shows exactly "009856" |
| Format.TimeTextRoundTrip | ui.py:151-153 | for two-digit hours and minutes the time text is "HH:MM", and both numbers read back from it |
| Format.TimeWithoutWrap | ui.py:151-153 | hours 22 + 3 and minute 5 render as "25:05" |
| Format.SatTextRoundTrip | ui.py:213-214 | the satellites text is "SAT:" followed by a decimal that reads back as the count |
| Format.FixQualityTextRoundTrip | ui.py:216-217 | the fix-quality text is "FQU:" followed by a decimal that reads back as the quality |
| Format.TempTextRoundTrip | ui.py:156 | the temperature text ends with the degree sign, and what precedes it reads back as the rounded temperature |
| Format.HumiTextRoundTrip | ui.py:157 | the humidity text ends with "%", and what precedes it reads back as the rounded humidity |
| Format.PressTextRoundTrip | ui.py:158 | the pressure text has no suffix and reads back as the rounded mmHg value |
| Format.SpeedTextValue | ui.py:160-161 | the speed text is at least two digits long, exactly two below 100 km/h, and keeps the value of a non-negative speed |
| Format.AltTextShape | ui.py:219-220 | the altitude text is "ALT:" followed by the one-decimal rendering |
| Format.LatTextShape | ui.py:210 | the latitude text is "LAT:", the six-decimal rendering, then the degree sign |
| Format.LonTextShape | ui.py:211 | the longitude text is "LON:", the six-decimal rendering, then the degree sign |
| Format.RamStatusRoundTrip | main.py:75 | the status text is "RAM:", a decimal that reads back as the free memory, then "B" |
| Screen.ApplyThen | ui.py:141-220 | writing two frames one after the other equals writing their composition, where a later write wins |
| Screen.Ui.MainScreen | ui.py:47-204 | all twelve labels hold their placeholder texts ("00", "00°", "00%", "00%", "ALT:0" plus six spaces, "LAT: wait " and "LON: wait " padded to 21 characters, "SAT:0", "FQU:0", "00:00", "000000  ", "Wait for status ...") |
| Screen.Ui.SetCounter | ui.py:141-142 | only the counter label changes, to the six-wide zero-padded count |
| Screen.Ui.SetTime | ui.py:151-153 | only the time label changes, to pad2(hours) ":" pad2(minutes) |
| Screen.Ui.SetBmeValues | ui.py:155-158 | exactly the temperature, humidity and pressure labels change, to their formats |
| Screen.Ui.SetSpeedValue | ui.py:160-161 | only the speed label changes, to the two-wide zero-padded speed |
| Screen.Ui.SetSysStat | ui.py:206-207 | only the status label changes, to its argument verbatim |
| Screen.Ui.SetCoordStat | ui.py:209-211 | the latitude label is written; the longitude label is written too unless the longitude is None, which raises after the latitude write; nothing else changes |
| Screen.Ui.SetSatNum | ui.py:213-214 | only the satellites label changes, to "SAT:" and the count |
| Screen.Ui.SetFixQuality | ui.py:216-217 | only the fix-quality label changes, to "FQU:" and the quality |
| Screen.Ui.SetAltitude | ui.py:219-220 | only the altitude label changes, to "ALT:" and the reading |
| MainLoop.GateFires | main.py:52-53 | the fix check is due once `current - last_print >= 1.0` |
| MainLoop.CoordsRaise | main.py:62-63 | a latitude without a longitude: the longitude format at ui.py:211 raises (ValueError on CircuitPython, TypeError on CPython), and nothing catches it |
| MainLoop.ReachesGps | main.py:42-56 | the pass neither ends in the sensor block nor stops at the no-fix `continue` |
| MainLoop.Outcome | main.py:40-76 | a pass halts on an uncaught sensor exception or the uncaught coordinate format error, is skipped at the no-fix `continue`, and otherwise reaches the sleep |
| MainLoop.BmeFrame | main.py:42-46 | a complete read writes temperature, humidity, pressure and altitude; an altitude `ValueError` writes the first three; an earlier raise writes nothing |
| MainLoop.PositionFrame | main.py:58-65 | the speed when present, the latitude always, and the longitude unless it raises; both from 0 when there is no latitude |
| MainLoop.FixInfoFrame | main.py:66-73 | satellites, fix quality and the time with the +3 hour, each only when the driver has it |
| MainLoop.StatusFrame | main.py:66-75 | the fix info, then always the counter 9856 and the memory status |
| MainLoop.GpsFrame | main.py:58-75 | the position writes, then the status writes unless the coordinates raised |
| MainLoop.RenderFrame | main.py:41-75 | the sensor block's writes, then the GPS block's when the pass gets past the fix gate |
| MainLoop.Step | main.py:41-76 | the labels after the pass's writes; `last_print` moved to the current time when the gate fired; the driver state the pump left; an uncaught sensor exception changes nothing |
| MainLoop.PumpedFix | main.py:48-51 | the driver state after the pump: the new parse when `gps.update()` returns, the previous state when it raises (the bare `except` swallows it) |
| MainLoop.BmePolicy | main.py:42-46 | temperature, humidity and pressure are written together or all held; altitude is written only on a complete read and held otherwise |
| MainLoop.AltitudeOnlyWithBme | main.py:42-46 | if the altitude label changed in a pass, that pass also wrote temperature, humidity and pressure from a complete read |
| MainLoop.PumpFailureIsHarmless | main.py:48-51 | a pass whose GPS pump raised behaves exactly like one whose pump re-reported the previous driver state: same new state, same outcome |
| MainLoop.LastPrintRule | main.py:52-54 | `last_print` becomes the current time exactly when the gate fires, is unchanged otherwise, and never decreases |
| MainLoop.GateRule | main.py:52-56 | a pass is skipped if and only if the gate fires without a fix; when the gate does not fire, the GPS labels are rendered whatever the fix state |
| MainLoop.SkippedPassHoldsGpsLabels | main.py:55-56 | a skipped pass leaves every label but the four sensor labels unchanged, including the counter and the status |
| MainLoop.GpsHoldOrFallback | main.py:58-73 | speed, satellites, fix quality and time show the new value when present and hold their text when absent; the latitude is always rewritten, from 0 when there is no latitude; the longitude is rewritten too unless it is None beside a latitude, which raises: then longitude, satellites, fix quality, time, counter and status all keep their text and the pass halts |
| MainLoop.CoordinateFallback | main.py:62-65 | with no latitude the coordinates read exactly "LAT:0.000000°" and "LON:0.000000°" |
| MainLoop.StatusRule | main.py:74-75 | the counter and status labels are written exactly on the passes that reach the sleep, with "009856" and "RAM:<free>B" |
| MainLoop.HourIsNotWrapped | main.py:72-73 | UTC 22:05 is displayed as "25:05" |
| MainLoop.Run | main.py:40-76 | the loop has no exit: a run processes every input unless an uncaught exception halts it; it sleeps at most once per pass; `last_print` never decreases over a run |
| MainLoop.HaltIsFinal | main.py:40 | once an uncaught exception has halted the program, later inputs change nothing |
| MainLoop.TempHeldAcrossFailures | main.py:42-46 | after any run, the temperature label shows the last reading that got as far as `set_bme_values`, or the placeholder if none did |
| MainLoop.HealthyRunRendersEveryPass | main.py:40-76 | when no sensor exception escapes the loop and every `gps.update()` parses a fix whose latitude has a longitude, every pass is rendered and sleeps |
| MainLoop.FixedRunRendersEveryPass | main.py:40-76 | from a fix with consistent coordinates, when no sensor exception escapes and every `gps.update()` either raises or parses such a fix, every pass is rendered and sleeps, and the fix is still held at the end |
| MainLoop.Dashboard.Boot | main.py:34-38 | a new screen object showing its placeholders, a driver with no fix, and `last_print` at the start time |
| MainLoop.Dashboard.Tick | main.py:41-76 | one pass changes the labels, `last_print` and the driver state exactly as `Step` says, and ends as `Outcome` says |
| MainLoop.Dashboard.RenderBme | main.py:42-46 | the sensor block writes exactly the sensor frame of its read |
| MainLoop.Dashboard.RenderGps | main.py:58-75 | the GPS block writes exactly the GPS frame and reports the uncaught format error of a latitude without a longitude |
| MainLoop.Dashboard.RenderPosition | main.py:58-65 | speed when present, and the coordinates or their zero fallback |
| MainLoop.Dashboard.RenderStatus | main.py:66-75 | satellites, fix quality and time when present, then the counter and the memory status |
| MainLoop.Dashboard.RenderFixInfo | main.py:66-73 | satellites, fix quality and time, each written only when the driver has it |
| MainLoop.Dashboard.RunLoop | main.py:40-76 | the loop over a sequence of pass inputs ends in the state, pass count, sleep count and halt flag that `Run` gives |
| MainLoop.Program | main.py:34-76 | booting and then looping over the pass inputs ends exactly where `Run` from the placeholder screen, the start time and a driver without a fix ends |

## Left out

- Every setter in ui.py writes through `label.Label._update_text` of the display-text
  library (ui.py:8), whose code is not part of this model. The model assumes it stores the
  text as given and never raises. Glyph capacity, truncation and any error it might raise
  for a text longer than the label was created with are not captured.
- Hardware bring-up is not modelled: the I2C, UART and SPI setup, the BME280 configuration,
  the GPS `send_command` calls, the unused button and the display init sequence with its
  `spi.try_lock()` busy-wait (`main.py:10-29`, `ui.py:12-45`). All of it is driver I/O.
- Layout is not modelled: fonts, colours, shapes, label positions and scales, and the
  display group (`ui.py:47-204`). Only the initial texts are kept.
- Float arithmetic and formatting are not modelled: Python's round-half-even `round`, the
  `* 0.75` and `* 1.852` products, and the `.6f` and `.1f` renderings of coordinates and
  altitude. They enter the model already rounded or already formatted.
- The NMEA parsing inside the GPS driver and the internals of the BME280 driver are not
  modelled. What a pass sees of them is a `Pump` and a `BmeRead`.
- `MainLoop.BmePolicy`: a `ValueError` raised inside `set_bme_values` after the temperature
  label was written (for example `round(nan)` on the humidity) would leave a partial write.
  The model has only failures before any write, failures at the altitude, and complete
  reads.
- An exception other than `ValueError` from the sensor block, or an `OverflowError` from
  `round` on an infinite value, ends the program. The model assumes it ends before any
  label is written (`OtherError`).
- A `gps.update()` that raises after changing some of the driver's fields is not modelled.
  A failed pump leaves the driver state as it was.
- `gc.collect()` and `time.sleep(1)` are effects on the platform only. The model records
  only whether a pass reached the sleep.
- `MainLoop.Dashboard.RunLoop`: the source loop never ends on its own. It is modelled over
  a finite sequence of pass inputs, so it stops when the inputs run out or an exception
  halts the program.
- The loop condition `while KeyboardInterrupt:` tests a class object, which is always true.
  The model has no transition for it.
