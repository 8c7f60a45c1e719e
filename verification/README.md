# BitDogLab irrigation simulator: a Dafny model of the firmware core

The firmware simulates three environmental readings (temperature, humidity,
brightness) on a Raspberry Pi Pico board. Buttons A and B and the joystick
button each toggle, through a 250 ms debounce gate, whether one reading
follows the joystick. On every pass of the main loop the selected readings
are overwritten from the joystick sample. The three readings are then
classified into an alert band (normal, warning, critical), which sets the
levels written to three status LED pins. A separate LED module packs RGB colours into the 32-bit GRB
words of a 5x5 WS2812 matrix and holds a static table of fifteen pictograms.

The model is functional: immutable records and pure step functions, with the
C integer widths written out explicitly.

- `general.dfy` (module `General`): the constants of `include/General.h`
  (pins, axis range, thresholds), the `RGB` record, the `Channel` enumeration,
  and C's unsigned wrap-around and truncating division.
- `buttons.dfy` (module `Buttons`): `HandleInterruption`, one debounce
  timestamp and one control flag per button, with unsigned 32-bit elapsed time.
- `monitor.dfy` (module `Monitor`): the per-tick mapping of the main loop,
  the band classifier and LED outputs of `UpdateIndicators`, and runs of
  button edges and loop ticks from power-on.
- `leds.dfy` (module `Leds`): `RGBMatrix` over `bv32` and `Draw` as a
  function that returns the 25 emitted words instead of pushing them to the PIO.
- `patterns.dfy` (module `Patterns`): the `Drawing` table and its
  progressive-fill structure.

Behaviour of the code as written:

- The three control flags are independent. Each button flips only its own
  flag, so several readings can follow the joystick at once. Nothing enforces
  mutual exclusion (`Buttons.FlagsNotExclusive`).
- The mapping is `(sample - 16) * (50 / range)`, or `* (100 / range)` for
  humidity and brightness, with `range` = 4066. There is no clamping. Both
  quotients are C integer divisions equal to 0, so every selected reading
  becomes 0 whatever the sample (`Monitor.ScaleCollapses`, `Monitor.Tick`).
  As a result, the readings never leave {boot value, 0} and the band is
  always normal (`Monitor.AlwaysNormal`).
- The warning band drives the green and blue pins high, not the red and green ones.
- `main` configures only the green and blue pins as outputs; the red pin is
  written but never set as an output, so the model speaks of the level written
  to it rather than of a lit LED.
- Debounce timestamps start at 0, so an edge in the first 250 ms after boot
  is rejected, including one at t = 0 (`Buttons.EdgeTrace`).
- No buzzer output and no pattern code are driven by the classifier; those
  calls are commented out.

The joystick sample is an arbitrary `u16` parameter of each tick, because the
call that would read it is commented out and the variable is never
initialised. The clock reading of each edge is a `u32` parameter.

## Model

| member | source | states |
|---|---|---|
| General.CDiv | Irrigacao.c:98-107 | C integer division as section 6.5.5 of ISO/IEC 9899 fixes it: the remainder `a - q*b` is zero or has the sign of `a`, and is smaller than `b` in magnitude |
| General.ThresholdsSeparateBands | include/General.h:33-38 | each channel's normal maximum lies strictly below its medium maximum, and both fit in a byte, so all three bands are inhabited |
| General.AxisSpanExceedsScales | include/General.h:27-28 | the axis range 16..4082 spans 4066, wider than every scale factor (50, 100) the loop divides by it |
| General.ButtonPinsDistinct | include/General.h:16-26 | the three button pins are pairwise distinct, so a pin selects at most one channel |
| General.StatusPinsDistinct | include/General.h:16-26 | the red, green and blue LED pins are distinct from each other and from every button pin |
| Buttons.Press | Irrigacao.c:133-137 | an edge is accepted iff the wrapped 32-bit time since the line's last accepted edge exceeds 250000 µs; acceptance records the time and flips the flag, rejection changes nothing |
| Buttons.HandleInterruption | Irrigacao.c:125-157 | each line (pin from General.h) changes only when its own pin fires, and then as one press; any other gpio leaves the whole state unchanged |
| Buttons.ToggleInvolution | Irrigacao.c:133-155 | two accepted presses of one button restore its flag and leave the second press's time recorded |
| Buttons.DebounceAfterAccept | Irrigacao.c:133-135 | after an accepted edge, a second edge on that line is rejected iff it comes at most 250000 µs later |
| Buttons.EarlyEdgesRejected | Irrigacao.c:11-13 | with all timestamps 0 at boot, no edge at or before 250000 µs changes anything |
| Buttons.FlagsNotExclusive | Irrigacao.c:130-146 | pressing A and then B leaves both temperature and humidity selected |
| Buttons.EdgeTrace | Irrigacao.c:130-137 | edges at 0 and 100000 µs after boot are rejected; one at 260001 µs is accepted and selects temperature |
| Monitor.ScaleCollapses | Irrigacao.c:89-107 | the loop's mapping yields 0 for every 16-bit sample whenever the scale factor is below the range, as 50 and 100 are below 4066 |
| Monitor.Tick | Irrigacao.c:96-108 | a tick sets each selected reading to 0 and leaves every unselected reading unchanged; several readings may change in one tick |
| Monitor.Classify | Irrigacao.c:240-258 | the cascade's band is the worst of the three per-channel bands |
| Monitor.BandCharacterisation | Irrigacao.c:240-265 | critical iff some reading exceeds its medium maximum; warning iff none does but some exceeds its normal maximum; normal iff all are within their normal maximum |
| Monitor.ClassifyMonotone | Irrigacao.c:240-252 | raising one reading with the others fixed never lowers the band |
| Monitor.Indicators | Irrigacao.c:244-263 | the red pin is driven high iff critical, the green pin iff not critical, the blue pin iff warning |
| Monitor.UpdateIndicators | Irrigacao.c:238-266 | the red pin is driven high iff some reading exceeds its medium maximum; the green pin iff none does; the blue pin iff none does but some exceeds its normal maximum |
| Monitor.DeselectedWhileUntouched | Irrigacao.c:125-157 | a deselected channel stays deselected after every prefix of a run in which its button sees no edge |
| Monitor.StickyHold | Irrigacao.c:96-108 | a reading whose channel stays deselected after every prefix of a run keeps its value across the run, whatever ticks and edges it holds |
| Monitor.ReadingsStayReachable | Irrigacao.c:96-108 | from readings that hold their boot values or 0, every run keeps them so |
| Monitor.AlwaysNormal | Irrigacao.c:92-109 | after any run from power-on, the band is normal and only the green pin is driven high |
| Leds.RGBMatrix | src/Leds.c:4-11 | the packed word holds green in byte 3, red in byte 2, blue in byte 1, and a zero low byte |
| Leds.UnpackPack | src/Leds.c:6-10 | reading bytes 3, 2 and 1 of the packed word gives back green, red and blue |
| Leds.PackUnpack | src/Leds.c:10 | every word with a zero low byte is the packing of the colour read from it |
| Leds.BlackIsZero | src/Leds.c:34-40 | the colour of a dark cell packs to the zero word |
| Leds.Emit | src/Leds.c:19-45 | the loop's words for cells i down to 0: i+1 words, the k-th from cell i-k, palette entry v-1 when the cell holds v in 1..3, otherwise 0 |
| Leds.Draw | src/Leds.c:14-46 | exactly 25 words; the k-th comes from cell 24-k, and is palette entry v-1 when the cell holds v in 1..3, otherwise 0 |
| Patterns.DrawingTotal | src/Leds.c:165-198 | every code yields 25 cells, each in 0..3; every code outside the fifteen defined ones yields the all-dark grid |
| Patterns.FillLayer1 | src/Leds.c:59-92 | patterns 100 to 500 each light one more dark cell than the previous one (or than the dark grid), with slot 1 |
| Patterns.FillLayer2 | src/Leds.c:94-127 | patterns 510 to 550 each light one more dark cell than the previous one, with slot 2 |
| Patterns.FillLayer3 | src/Leds.c:129-162 | patterns 551 to 555 each light one more dark cell than the previous one, with slot 3 |
| Patterns.FillStep | src/Leds.c:59-162 | along the order 100..555, each pattern is its predecessor with exactly one previously dark cell lit |
| Patterns.FillWellFormed | src/Leds.c:52-162 | every pattern of the fill has 25 cells, each a slot 0..3 |
| Patterns.FillLitCount | src/Leds.c:59-162 | the i-th pattern of the fill lights exactly i+1 cells: 100 lights one, 555 lights fifteen |
| Patterns.DarkCodeFrame | src/Leds.c:165-198 | drawing the pattern of any code outside the table emits 25 zero words, whatever the palette |

## Left out

- `main` peripheral bring-up (PIO, ADC, I2C, GPIO, IRQ registration), `SetInterruption` and the startup palette and pattern: hardware plumbing with no logic of its own.
- `ReadJoystick` and the ADC: the sample is a parameter of each tick. `pio_sm_put_blocking`: `Draw` returns the words instead.
- `UpdateDisplay`, `LedInformationMessage`, `sprintf` and `printf`: text rendering on the SSD1306 display, outside the core.
- `UpdateDrawing`: a two-line wrapper around `Drawing` and `Draw`, and its calls from the classifier are commented out.
- Buzzer and pattern-code outputs of the classifier: commented out in the source.
- `volatile` and interrupt concurrency: the handler is modelled as one indivisible step between loop ticks.
- The `events` argument of `HandleInterruption`: the handler never reads it.
- Grid cells are `double` in the source but hold only exact 0.0 to 3.0, so they are modelled as naturals; `Draw` treats every other value as dark, as the source does.
- `RGB` components are modelled as their eight stored bits (`bv8`), not as signed `int8_t` values, because the packing only reads them as `unsigned char`.
- The undefined behaviour of `G << 24` on a signed `int` for green bytes of 128 or more: the packing is modelled over `bv32`.
- `NUM_PIXELS` is defined in `Leds.h`, which is not part of this model; it is taken as 25, the size of every table grid.
