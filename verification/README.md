# AVR oscilloscope firmware — verified model of the render loop

The firmware samples a signal with the ATmega16's ADC into a byte buffer and
draws it on an ST7735 TFT. Two revisions of the firmware exist side by side,
and each is modelled as its own module:

- `lib/oscope.c` (module `Oscope`). The main loop renders the buffer only
  while the scope screen is selected (`_selector == 0`). The trace is drawn
  right to left, with the halving map `OFFSET_Y+(HEIGHT-(s>>1))`. The file
  also draws the settings menu (`ShowItems`) and drives the three
  range-control lines (`PortsInit`).
- `lib/auxillary.c` (module `Auxillary`). The main loop renders the buffer
  and clears `_index`, `_count` and `_freq`. It draws the splash screen and
  loading bar (`ShowLoading`), the border and grid (`AxisShow`), a `P=`
  readout of `_freq`, and a trace drawn left to right with the scaled map
  `HEIGHT+OFFSET_Y-HEIGHT*s/255`.

Shared pieces:

- Module `Display` models the display as an append-only log of draw
  commands (`Lcd.log`). Every drawing routine is a method that appends to
  that log. Its `ensures` ties the appended commands to a specification
  function, and the lemmas state what those functions guarantee.
- Module `Avr` holds the register and integer vocabulary: `uint8_t`,
  `int8_t`, the 16-bit `int` limit, and bit masks on `bv8` registers.
- The header constants (`WIDTH`, `HEIGHT`, `OFFSET_X/Y`, `STEP_X/Y`,
  `SIZE_X`, `VOLT_CONTROL_*`) are the fields of a `Config` value, and the
  loading-bar corners `POSITION_XS/XE/YS/YE` are the fields of a
  `LoadingBar` value (module `Auxillary`). Each has a `Valid()` predicate
  that states what the code needs of them:
  - `uint8_t` loop counters stay in 0..255;
  - the products evaluated in 16-bit `int` do not overflow.
- The volatile globals and the global interrupt flag are the fields of a
  `Scope` class.
- The interrupt handlers are not part of this model. They appear as an
  abstract `Interrupt` step that may run only while interrupts are enabled.
  `StartScope`'s endless loop runs over a finite schedule of main-loop
  passes and interrupts. `Next` is the effect of one event on a snapshot
  of the globals (`Globals`) and on the display. `Run` folds it over a
  schedule, and `StartScope` is proved to end in exactly that state.

## Model

| member | source | states |
|---|---|---|
| Oscope.Row | lib/oscope.c:236 | the row of a sample lies between 127 rows above the bottom edge and the bottom edge `OFFSET_Y+HEIGHT` |
| Oscope.RowShape | lib/oscope.c:236 | sample 0 lands on the bottom edge; the map is non-increasing; two samples share a row exactly when they agree after the shift; 254 and 255 share a row |
| Oscope.TraceShape | lib/oscope.c:222-239 | with the counter at `i`, the loop draws `i` segments; the k-th joins buffer elements `i-k-1` and `i-k` |
| Oscope.TraceColumns | lib/oscope.c:222-239 | a full trace is `WIDTH-1` white lines; line k joins column `OFFSET_X+WIDTH-2-k` to `OFFSET_X+WIDTH-1-k`, so the columns walk downward, with rows in the map's range |
| Oscope.TraceReadsOnlyPrefix | lib/oscope.c:234-239 | the trace with the counter at `i` depends only on `_buffer[0..i]`, so a full trace reads only the `WIDTH` declared elements |
| Oscope.Scope.DrawTrace | lib/oscope.c:222-239 | with interrupts masked, the decrementing loop appends exactly the full trace of the current buffer; every index it reads is in bounds |
| Oscope.Scope.BufferShow | lib/oscope.c:217-250 | appends clear, position, axis, trace, values and update, in that order; returns with interrupts enabled whatever SREG held; the globals and range registers are unchanged |
| Oscope.Scope.Iterate | lib/oscope.c:51-62 | renders and zeroes `_index` exactly when `_selector == 0` and `_index > WIDTH`; otherwise nothing is drawn and the cursor, selector and interrupt flag are untouched |
| Oscope.RunPollsOnly | lib/oscope.c:51-62 | with no interrupt in between, any number of passes render at most once: the first pass renders and zeroes `_index` exactly when `_selector == 0` and `_index > WIDTH`, and later passes draw nothing |
| Oscope.WideBufferNeverShown | lib/oscope.c:55 | with `WIDTH` 255 (or more), `_index > WIDTH` never holds for a `uint8_t` cursor, so passes never render |
| Oscope.Scope.Dispatch | lib/oscope.c:51-62 | one event of a schedule, a loop pass or an interrupt, changes the globals and the display exactly as the one-step function `Next` says, and leaves the direction register alone |
| Oscope.Scope.StartScope | lib/oscope.c:46-62 | after the range lines and `sei()`, the loop runs every event with interrupts enabled; the final globals and the appended commands are exactly the fold `Run` of `Next` over the schedule, starting from the globals on entry with the range levels set; the range lines become outputs |
| Oscope.Scope.Interrupt | lib/oscope.c:23-27 | an interrupt may run only while interrupts are enabled; it may change the cursor, selector, samples and port, but never the direction register |
| Oscope.Scope.constructor | lib/oscope.c:23-27 | `_index` and `_selector` start at 0; the buffer holds `WIDTH` elements |
| Oscope.MenuRowColours | lib/oscope.c:285-310 | in the drawn menu of `4*count+5` commands, row `j`'s fill is white and its text black when `j == selector-1`; otherwise the fill is black and the text white |
| Oscope.MenuRowWindow | lib/oscope.c:285-310 | row `j`'s window spans the full width, from `step_y` for item `j` to `step_y+20` |
| Oscope.MenuRowsOnPanel | lib/oscope.c:265-307 | for up to ten items, row `j`'s window is rows `36+20j..56+20j`, and every such end is at most 255 |
| Oscope.EleventhRowLeavesPanel | lib/oscope.c:282-307 | the eleventh item starts at row 236, so its window ends at 256, which a `uint8_t` coordinate cannot hold |
| Oscope.ItemTopNoWrap | lib/oscope.c:265-307 | `step_y` starts at 16 and gains 20 (mod 256) per row; while it does not wrap, item `i` starts at `36+20i`, below the title window `5..25` |
| Oscope.MenuRowsShape | lib/oscope.c:285-310 | the loop emits four commands per item `i < count`, in item order: window, fill, position, text |
| Oscope.MenuRowsHighlights | lib/oscope.c:285-310 | the rows from `i` on hold one white fill when `selector-1` is among them and none otherwise |
| Oscope.MenuHighlights | lib/oscope.c:261-313 | the menu has exactly one highlighted row when `1 <= selector <= count`, and none for selector 0 or past the last item |
| Oscope.MenuRowsFill | lib/oscope.c:285-310 | each row's fill count `(SIZE_X+1)*21` equals the pixel count of the window set just before it |
| Oscope.MenuFillsMatchWindows | lib/oscope.c:271-312 | every fill in the menu, the title included, sends exactly its window's pixel count |
| Oscope.ShowItem | lib/oscope.c:287-305 | one loop pass, both branches, appends exactly item `i`'s window, fill, position and text |
| Oscope.ShowRows | lib/oscope.c:285-310 | the `while (i < count)` loop appends exactly rows `0..count-1`, with `step_y` advancing one item per pass |
| Oscope.ShowItems | lib/oscope.c:261-313 | the method appends the title, the rows `0..count-1` and an update, with `step_y` wrapping as a `uint8_t` |
| Oscope.RangeOutputsBits | lib/oscope.c:201-203 | the three range bits become outputs and every other direction bit keeps its value |
| Oscope.RangeLevelsBits | lib/oscope.c:205-208 | in the port, line 1 is set, lines 2 and 3 are cleared (the clear wins on a clash), and every other bit keeps its value |
| Oscope.RangeLevelsExclusive | lib/oscope.c:205-208 | with distinct line numbers, line 1 is high and lines 2 and 3 are low |
| Oscope.PortsInitIdempotent | lib/oscope.c:198-209 | applying the port set-up twice gives the same registers as applying it once |
| Oscope.Scope.PortsInit | lib/oscope.c:198-209 | the read-modify-write statements produce exactly the direction and port values above; the other state is unchanged |
| Auxillary.ScaledRow | lib/auxillary.c:273 | the scaled row of any sample lies in `[OFFSET_Y, OFFSET_Y+HEIGHT]` |
| Auxillary.ScaledRowShape | lib/auxillary.c:273 | sample 0 lands on `OFFSET_Y+HEIGHT` and 255 exactly on `OFFSET_Y`; the map is non-increasing |
| Auxillary.ScaledTraceShape | lib/auxillary.c:271-274 | with the counter starting at `i`, the loop draws `WIDTH-i` segments, the k-th for counter `i+k` |
| Auxillary.ScaledTraceColumns | lib/auxillary.c:271-274 | a full trace is `WIDTH` white lines in ascending order; line k runs from column `OFFSET_X+k` to `OFFSET_X+k+1`, with rows inside the plot |
| Auxillary.TraceReadsPastDeclaredBuffer | lib/auxillary.c:271-273 | two buffers that agree on all `WIDTH` declared elements can draw different traces, because the last segment reads `_buffer[WIDTH]` |
| Auxillary.Scope.DrawTrace | lib/auxillary.c:271-274 | with interrupts masked, the counted loop appends exactly the full trace; every read is within the `WIDTH+1`-element buffer |
| Auxillary.Scope.ShowReadout | lib/auxillary.c:258-267 | appends the cleared screen, `P=` and the decimal text of `_freq`; that text and its NUL fit in 5 bytes, the corrected size. The source's `char str[3]` overflows for any `_freq` outside -9..99 (see FreqTextFitsIff) |
| Auxillary.Scope.BufferShow | lib/auxillary.c:250-281 | appends clear, position, `P=`, the decimal text of `_freq`, the axes, the trace and an update; returns with interrupts enabled and the counters unchanged |
| Auxillary.Scope.Iterate | lib/auxillary.c:100-112 | when `_index > WIDTH`, it renders, then `_index`, `_count` and `_freq` become 0; otherwise no state changes and nothing is drawn |
| Auxillary.RunPollsOnly | lib/auxillary.c:100-112 | with no interrupt in between, any number of passes render at most once: the first pass renders and zeroes `_index`, `_count` and `_freq` exactly when `_index > WIDTH`, and later passes draw nothing |
| Auxillary.HandoffReachable | lib/auxillary.c:100-112 | unlike in `Oscope`, `WIDTH` stays below 255, so the `uint8_t` cursor can exceed it: a pass with `_index == WIDTH+1` draws the frame for `_freq` 0 and clears the cursor and both counters |
| Auxillary.Scope.Dispatch | lib/auxillary.c:100-112 | one event of a schedule, a loop pass or an interrupt, changes the globals and the display exactly as the one-step function `Next` says |
| Auxillary.Scope.StartScope | lib/auxillary.c:97-112 | after `sei()`, the loop runs every event with interrupts enabled; the final globals and the appended commands are exactly the fold `Run` of `Next` over the schedule, starting from the globals on entry |
| Auxillary.Scope.Interrupt | lib/auxillary.c:27-35 | an interrupt may run only while interrupts are enabled; it may change the cursor, the counters and the samples |
| Auxillary.Scope.constructor | lib/auxillary.c:27-35 | `_index`, `_count` and `_freq` start at 0; the buffer holds `WIDTH+1` elements |
| Auxillary.GridShape | lib/auxillary.c:226-241 | grid line k is at `start+k*STEP` and within the bound, and the position after the last line is past it, so the lines are exactly the positions `<= bound`, in ascending order |
| Auxillary.GridInsideBorders | lib/auxillary.c:213-242 | both grids start on a border line, and every grid line lies inside the rectangle the four borders enclose |
| Auxillary.DrawGrid | lib/auxillary.c:226-241 | each `uint8_t` stepping loop appends exactly its grid and terminates |
| Auxillary.AxisShow | lib/auxillary.c:213-242 | appends the four borders of `[OFFSET_X, OFFSET_X+WIDTH] x [OFFSET_Y, OFFSET_Y+HEIGHT]`, then the vertical and the horizontal grid |
| Auxillary.ProgressShape | lib/auxillary.c:62-74 | from counter `x` the loop makes `XE-x` passes, none if `x >= XE`; pass k sets the right edge to `x+1+k`, so the edges rise strictly from `XS+1` to `XE` |
| Auxillary.ProgressFillsMatchWindows | lib/auxillary.c:62-74 | each fill count `(x-XS+1)*(y+1)` equals the pixel count of the window set just before it |
| Auxillary.ShowSplash | lib/auxillary.c:54-62 | appends the driver init, the cleared screen and the title `OSCOPE Ver.3` at (50, 20) |
| Auxillary.ShowLoading | lib/auxillary.c:43-75 | the method appends the driver init, splash text and progress passes, exactly as specified |
| Auxillary.DigitsRoundTrip | lib/auxillary.c:265 | the `%d` digits of a number read back as that number |
| Auxillary.DigitsLength | lib/auxillary.c:265 | numbers below 10, 100 and 1000 print as one, two and three digits |
| Auxillary.FreqTextFitsIff | lib/auxillary.c:252-265 | the text of an `int8_t` and its NUL fit `char str[3]` exactly for -9..99 |
| Auxillary.FreqTextFits | lib/auxillary.c:252-265 | five bytes hold the text of every `int8_t`; four are not enough for -128 |

## Left out

- Register set-up is not modelled because it configures hardware and draws nothing. This covers:
  - `Timer0Init`, `Timer1AInit`, `AdcInit` and `Int01Init`;
  - the `ADC_CHANNEL` and `TIMER*_START` macros.
- The ADC-complete and INT0/INT1 handlers are not part of this model. `Scope.Interrupt` lets them set any cursor, counter, selector, sample or port value. It never invents how samples are appended.
- Real pre-emption is not modelled. Interrupts can only run between main-loop passes. `cli()`/`sei()` are a boolean flag. SREG is modelled only as the saved and restored I flag.
- Oscope.Scope.StartScope: the range lines stay outputs only because `Interrupt` is taken never to write `VOLT_CONTROL_DDR`. The handlers that would have to keep that promise are not part of this model.
- Oscope.MenuFillsMatchWindows: states the windows the caller computes, because the driver's `uint8_t` truncation of coordinates is not modelled. The panel sees those windows only up to ten items (`MenuRowsOnPanel`). The eleventh window ends at 256, which wraps to 0 (`EleventhRowLeavesPanel`).
- Oscope.TraceColumns: states the columns and rows the caller computes, not the driver's `uint8_t` truncation of them. `Config.Valid` in module `Oscope` admits `OFFSET_X`, `OFFSET_Y` and `HEIGHT` that put them past 255, where the driver would wrap.
- `ShowAxis`, `ShowValues` (lib/oscope.c) and `St7735Init` are not part of this model. They are logged as opaque commands. The ST7735 driver itself is reduced to the command log. Its `uint8_t` coordinate parameters are logged as the `int` values the caller computes.
- `_delay_ms` after the loading bar steps and after each render is left out. Only time passes there.
- `_temp` is left out because the main loop never reads or writes it.
- `sprintf` is reduced to the length and digits of its `%d` output.
- Auxillary.DrawGrid: requires `bound + STEP <= 255` and `STEP > 0`. That is enough for the `uint8_t` loop to terminate, but it is not necessary. A counter that wraps past 255 can still land above the bound by chance and exit.
- Auxillary.ShowLoading: the test `x++ < POSITION_XE` is modelled as a test followed by an increment at the top of the body. The one extra increment after the last failed test changes only the dead local `x`.

## Findings

| source | as written | input that shows it | evidently intended | confidence | as-written member | corrected member |
|---|---|---|---|---|---|---|
| lib/auxillary.c:35 | `_buffer` has `WIDTH` elements, but the trace loop reads `_buffer[i+1]` up to `i = WIDTH-1` | `i = WIDTH-1` reads `_buffer[WIDTH]`; buffers equal on all `WIDTH` elements draw different last segments | a buffer of `WIDTH+1` samples, as the `_index > WIDTH` handoff implies | not executed | Auxillary.TraceReadsPastDeclaredBuffer | Auxillary.ScaledTraceColumns |
| lib/auxillary.c:252 | `char str[3]` receives `sprintf("%d", _freq)` of an `int8_t` | `_freq = 100` writes "100" plus NUL (4 bytes); `_freq = -128` writes 5 bytes | room for "-128" and the NUL, 5 bytes | not executed | Auxillary.FreqTextFitsIff | Auxillary.FreqTextFits |
