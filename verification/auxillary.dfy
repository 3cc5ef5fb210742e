/**
 * The second firmware revision, lib/auxillary.c: the loading bar, the main
 * loop that renders a full buffer and clears the counters, the axes and
 * grid, the trace drawn left to right with the scaled sample-to-row map,
 * and the `P=` readout of `_freq`.
 */
module Auxillary {
  import opened Avr
  import opened Display

  const Black := 0x0000
  const White := 0xffff
  /** Colour of the border and grid lines. */
  const GridColour := 0x5C4B

  /**
   * The build-time constants of the header that place the plot and space
   * its grid.
   */
  datatype Config = Config(width: int, height: int, offsetX: int, offsetY: int, stepX: int, stepY: int)
  {
    predicate Valid()
    {
      // `for (i=0; i<WIDTH; i++)` with a `uint8_t` counter ends only below 256
      && 1 <= width <= 255
      // `HEIGHT*_buffer[i]` is evaluated in 16-bit `int`
      && 0 <= height && height * 255 <= IntMax
      && 0 <= offsetX && 0 <= offsetY
      // the grid loops step a `uint8_t`; past the bound it must not wrap
      && 0 < stepX && offsetX + width + stepX <= 255
      && 0 < stepY && offsetY + height + stepY <= 255
    }
  }

  // ---------------------------------------------------------------------
  // Sample-to-row map
  // ---------------------------------------------------------------------

  /** `a <= b` survives the division by 255 that scales samples. */
  lemma ScaleMonotone(h: nat, s: Byte, t: Byte)
    requires s <= t
    ensures h * s / 255 <= h * t / 255
  {
    assert h * t - h * s == h * (t - s) >= 0;
  }

  /**
   * Screen row of sample `s`: `HEIGHT+OFFSET_Y-HEIGHT*s/255`, with the
   * division rounding toward zero on a non-negative product.
   */
  function ScaledRow(c: Config, s: Byte): (row: int)
    requires c.Valid()
    ensures c.offsetY <= row <= c.offsetY + c.height
  {
    ScaleMonotone(c.height, s, 255);
    c.height + c.offsetY - c.height * s / 255
  }

  /**
   * Zero sits on the plot's bottom edge, 255 exactly on its top edge, and a
   * larger sample never draws lower.
   */
  lemma ScaledRowShape(c: Config, s: Byte, t: Byte)
    requires c.Valid()
    ensures ScaledRow(c, 0) == c.offsetY + c.height
    ensures ScaledRow(c, 255) == c.offsetY
    ensures s <= t ==> ScaledRow(c, t) <= ScaledRow(c, s)
  {
    if s <= t {
      ScaleMonotone(c.height, s, t);
    }
  }

  // ---------------------------------------------------------------------
  // The trace
  // ---------------------------------------------------------------------

  /** Elements of `_buffer` as the source declares it. */
  function DeclaredLength(c: Config): int
  {
    c.width
  }

  /** Elements the trace loop reads: one more than declared, so the last column has a right-hand neighbour. */
  function BufferLength(c: Config): int
  {
    c.width + 1
  }

  /** The segment drawn when the counter is `i`: column `i` to column `i+1`. */
  function ScaledSegment(c: Config, buf: seq<Byte>, i: int): Cmd
    requires c.Valid() && 0 <= i < c.width && |buf| == BufferLength(c)
  {
    DrawLine(i + c.offsetX, i + c.offsetX + 1, ScaledRow(c, buf[i]), ScaledRow(c, buf[i + 1]), White)
  }

  /** The segments drawn while the counter runs from `i` up to `WIDTH-1`. */
  function ScaledTrace(c: Config, buf: seq<Byte>, i: nat): seq<Cmd>
    requires c.Valid() && i <= c.width && |buf| == BufferLength(c)
    decreases c.width - i
  {
    if i == c.width then [] else [ScaledSegment(c, buf, i)] + ScaledTrace(c, buf, i + 1)
  }

  lemma {:induction false} ScaledTraceShape(c: Config, buf: seq<Byte>, i: nat)
    requires c.Valid() && i <= c.width && |buf| == BufferLength(c)
    ensures |ScaledTrace(c, buf, i)| == c.width - i
    ensures forall k :: 0 <= k < c.width - i ==> ScaledTrace(c, buf, i)[k] == ScaledSegment(c, buf, i + k)
    decreases c.width - i
  {
    if i < c.width {
      ScaledTraceShape(c, buf, i + 1);
    }
  }

  /** `cmd` is a white line from column `x` to `x+1`, both rows inside the plot. */
  predicate SpansColumn(c: Config, cmd: Cmd, x: int)
  {
    && cmd.DrawLine?
    && cmd.x0 == x && cmd.x1 == x + 1
    && c.offsetY <= cmd.y0 <= c.offsetY + c.height
    && c.offsetY <= cmd.y1 <= c.offsetY + c.height
    && cmd.colour == White
  }

  /**
   * A full trace has `WIDTH` lines in ascending column order; line `k` runs
   * from column `OFFSET_X+k` to `OFFSET_X+k+1`, so together they span the
   * plot from its left border to its right border.
   */
  lemma ScaledTraceColumns(c: Config, buf: seq<Byte>)
    requires c.Valid() && |buf| == BufferLength(c)
    ensures |ScaledTrace(c, buf, 0)| == c.width
    ensures forall k :: 0 <= k < c.width ==> SpansColumn(c, ScaledTrace(c, buf, 0)[k], c.offsetX + k)
  {
    ScaledTraceShape(c, buf, 0);
  }

  /**
   * As written, the last segment's right end is `_buffer[WIDTH]`: two
   * buffers that agree on all `WIDTH` declared elements can still draw
   * different traces.
   */
  lemma TraceReadsPastDeclaredBuffer(c: Config)
    requires c.Valid() && c.height > 0
    ensures exists a: seq<Byte>, b: seq<Byte> ::
      && |a| == BufferLength(c) && |b| == BufferLength(c)
      && a[..DeclaredLength(c)] == b[..DeclaredLength(c)]
      && ScaledTrace(c, a, 0) != ScaledTrace(c, b, 0)
  {
    var a: seq<Byte> := seq(BufferLength(c), _ => 0);
    var b: seq<Byte> := a[c.width := 255];
    assert a[..DeclaredLength(c)] == b[..DeclaredLength(c)];
    ScaledTraceShape(c, a, 0);
    ScaledTraceShape(c, b, 0);
    ScaledRowShape(c, 0, 255);
    assert ScaledTrace(c, a, 0)[c.width - 1].y1 != ScaledTrace(c, b, 0)[c.width - 1].y1;
  }

  // ---------------------------------------------------------------------
  // Axes and grid
  // ---------------------------------------------------------------------

  datatype Direction = Vertical | Horizontal

  /** Spacing of the grid lines across `d`. */
  function Step(c: Config, d: Direction): int
  {
    if d == Vertical then c.stepX else c.stepY
  }

  /** Last position a grid line may take: `WIDTH+OFFSET_X` or `HEIGHT+OFFSET_Y`. */
  function Bound(c: Config, d: Direction): int
  {
    if d == Vertical then c.width + c.offsetX else c.height + c.offsetY
  }

  /** The full-size grid line at position `p`. */
  function GridLine(c: Config, d: Direction, p: int): Cmd
  {
    if d == Vertical then DrawLineVertical(p, c.offsetY, c.offsetY + c.height, GridColour)
    else DrawLineHorizontal(c.offsetX, c.offsetX + c.width, p, GridColour)
  }

  /** The grid lines drawn from position `p` on, one step apart, while the bound is not passed. */
  function Grid(c: Config, d: Direction, p: int): seq<Cmd>
    requires c.Valid()
    decreases Bound(c, d) + 1 - p
  {
    if p > Bound(c, d) then [] else [GridLine(c, d, p)] + Grid(c, d, p + Step(c, d))
  }

  /** Position of grid line `k` from `p`, one step apart. */
  function GridPosition(p: int, step: int, k: int): int
  {
    p + k * step
  }

  lemma GridPositionNext(p: int, step: int, k: int)
    ensures GridPosition(p + step, step, k) == GridPosition(p, step, k + 1)
  {
    assert (k + 1) * step == k * step + step;
  }

  /**
   * Line `k` of the grid from `p` sits at `p + k*step`, within the bound,
   * and the next position after the last line lies past the bound: the
   * lines are exactly the positions `p + k*step <= bound`, in ascending order.
   */
  lemma {:induction false} GridShape(c: Config, d: Direction, p: int)
    requires c.Valid()
    ensures forall k :: 0 <= k < |Grid(c, d, p)| ==>
      Grid(c, d, p)[k] == GridLine(c, d, GridPosition(p, Step(c, d), k)) && GridPosition(p, Step(c, d), k) <= Bound(c, d)
    ensures GridPosition(p, Step(c, d), |Grid(c, d, p)|) > Bound(c, d)
    decreases Bound(c, d) + 1 - p
  {
    var s := Step(c, d);
    if p <= Bound(c, d) {
      var g := Grid(c, d, p);
      var rest := Grid(c, d, p + s);
      assert g == [GridLine(c, d, p)] + rest;
      GridShape(c, d, p + s);
      forall k | 0 <= k < |g|
        ensures g[k] == GridLine(c, d, GridPosition(p, s, k)) && GridPosition(p, s, k) <= Bound(c, d)
      {
        if k > 0 {
          assert g[k] == rest[k - 1];
          GridPositionNext(p, s, k - 1);
        }
      }
      GridPositionNext(p, s, |rest|);
    } else {
      assert GridPosition(p, s, 0) == p;
    }
  }

  /** The four border lines of the plot rectangle `[OFFSET_X, OFFSET_X+WIDTH] x [OFFSET_Y, OFFSET_Y+HEIGHT]`. */
  function Borders(c: Config): seq<Cmd>
  {
    [ DrawLineHorizontal(c.offsetX, c.offsetX + c.width, c.offsetY + c.height, GridColour),
      DrawLineHorizontal(c.offsetX, c.offsetX + c.width, c.offsetY, GridColour),
      DrawLineVertical(c.offsetX, c.offsetY, c.offsetY + c.height, GridColour),
      DrawLineVertical(c.offsetX + c.width, c.offsetY, c.offsetY + c.height, GridColour) ]
  }

  /** Everything `AxisShow` sends to the display. */
  function Axes(c: Config): seq<Cmd>
    requires c.Valid()
  {
    Borders(c) + Grid(c, Vertical, c.offsetX) + Grid(c, Horizontal, c.offsetY)
  }

  /**
   * Both grids start on a border line and stay inside the rectangle the
   * borders enclose.
   */
  lemma GridInsideBorders(c: Config)
    requires c.Valid()
    ensures Grid(c, Vertical, c.offsetX) != [] && Grid(c, Vertical, c.offsetX)[0] == Borders(c)[2]
    ensures Grid(c, Horizontal, c.offsetY) != [] && Grid(c, Horizontal, c.offsetY)[0] == Borders(c)[1]
    ensures forall k :: 0 <= k < |Grid(c, Vertical, c.offsetX)| ==>
      && Grid(c, Vertical, c.offsetX)[k].DrawLineVertical?
      && c.offsetX <= Grid(c, Vertical, c.offsetX)[k].x <= c.offsetX + c.width
    ensures forall k :: 0 <= k < |Grid(c, Horizontal, c.offsetY)| ==>
      && Grid(c, Horizontal, c.offsetY)[k].DrawLineHorizontal?
      && c.offsetY <= Grid(c, Horizontal, c.offsetY)[k].y <= c.offsetY + c.height
  {
    GridShape(c, Vertical, c.offsetX);
    GridShape(c, Horizontal, c.offsetY);
  }

  /**
   * One grid loop of `AxisShow`: a `uint8_t` counter that starts on the
   * border and advances one step per line until it passes the bound.
   */
  method DrawGrid(lcd: Lcd, c: Config, d: Direction)
    requires c.Valid()
    modifies lcd
    ensures lcd.log == old(lcd.log) + Grid(c, d, if d == Vertical then c.offsetX else c.offsetY)
  {
    var start: Byte := if d == Vertical then c.offsetX else c.offsetY;
    var i: Byte := start;
    while i <= Bound(c, d)
      invariant i <= Bound(c, d) + Step(c, d)
      invariant lcd.log + Grid(c, d, i) == old(lcd.log) + Grid(c, d, start)
      decreases Bound(c, d) + 1 - i
    {
      ghost var before := lcd.log;
      assert Grid(c, d, i) == [GridLine(c, d, i)] + Grid(c, d, i + Step(c, d));
      if d == Vertical {
        lcd.Emit(DrawLineVertical(i, c.offsetY, c.offsetY + c.height, GridColour));
      } else {
        lcd.Emit(DrawLineHorizontal(c.offsetX, c.offsetX + c.width, i, GridColour));
      }
      assert lcd.log == before + [GridLine(c, d, i)];
      assert (i + Step(c, d)) % 256 == i + Step(c, d);
      i := (i + Step(c, d)) % 256;
    }
    assert Grid(c, d, i) == [];
  }

  /** `AxisShow`: the four borders, then the vertical and the horizontal grid lines. */
  method AxisShow(lcd: Lcd, c: Config)
    requires c.Valid()
    modifies lcd
    ensures lcd.log == old(lcd.log) + Axes(c)
  {
    var colour := GridColour;
    lcd.Emit(DrawLineHorizontal(c.offsetX, c.offsetX + c.width, c.offsetY + c.height, colour));
    lcd.Emit(DrawLineHorizontal(c.offsetX, c.offsetX + c.width, c.offsetY, colour));
    lcd.Emit(DrawLineVertical(c.offsetX, c.offsetY, c.offsetY + c.height, colour));
    lcd.Emit(DrawLineVertical(c.offsetX + c.width, c.offsetY, c.offsetY + c.height, colour));
    ghost var bordered := lcd.log;
    assert bordered == old(lcd.log) + Borders(c);
    DrawGrid(lcd, c, Vertical);
    DrawGrid(lcd, c, Horizontal);
    assert lcd.log == bordered + Grid(c, Vertical, c.offsetX) + Grid(c, Horizontal, c.offsetY);
  }

  // ---------------------------------------------------------------------
  // Loading bar
  // ---------------------------------------------------------------------

  /** The header's `POSITION_XS`, `POSITION_XE`, `POSITION_YS`, `POSITION_YE`. */
  datatype LoadingBar = LoadingBar(xs: int, xe: int, ys: int, ye: int)
  {
    predicate Valid()
    {
      && 0 <= xs <= 255 && 0 <= xe <= 255
      && 0 <= ys <= ye <= 255
      // the fill count `(x-XS+1)*(y+1)` is evaluated in 16-bit `int`
      && (xs < xe ==> (xe - xs + 1) * (ye - ys + 1) <= IntMax)
    }
  }

  /** The `uint8_t` `y = POSITION_YE - POSITION_YS`. */
  function BarRows(bar: LoadingBar): Byte
  {
    (bar.ye - bar.ys) % 256
  }

  /** What one pass of the loading loop sends, once `x` has been advanced. */
  function BarStep(bar: LoadingBar, x: int): seq<Cmd>
  {
    [ SetWindow(bar.xs, x, bar.ys, bar.ye),
      SendColor565(White, (x - bar.xs + 1) * (BarRows(bar) + 1)),
      UpdateScreen ]
  }

  /** The passes still to come when the counter holds `x`. */
  function Progress(bar: LoadingBar, x: int): seq<Cmd>
    decreases bar.xe - x
  {
    if x >= bar.xe then [] else BarStep(bar, x + 1) + Progress(bar, x + 1)
  }

  function LoadingIntro(): seq<Cmd>
  {
    [Unmodelled("St7735Init"), ClearScreen(Black), SetPosition(50, 20), DrawString("OSCOPE Ver.3", White, X2)]
  }

  /**
   * From counter `x` the loop makes `XE - x` passes (none if `x >= XE`);
   * pass `k` grows the bar's right edge to `x+1+k`, so the edges run
   * through `x+1, ..., XE` in increasing order.
   */
  lemma {:induction false} ProgressShape(bar: LoadingBar, x: int)
    ensures |Progress(bar, x)| == if x < bar.xe then 3 * (bar.xe - x) else 0
    ensures forall k :: 0 <= k < bar.xe - x ==>
      Progress(bar, x)[3 * k..3 * k + 3] == BarStep(bar, x + 1 + k)
    decreases bar.xe - x
  {
    if x < bar.xe {
      var rest := Progress(bar, x + 1);
      ProgressShape(bar, x + 1);
      forall k | 0 <= k < bar.xe - x
        ensures Progress(bar, x)[3 * k..3 * k + 3] == BarStep(bar, x + 1 + k)
      {
        if k > 0 {
          assert Progress(bar, x)[3 * k..3 * k + 3] == rest[3 * (k - 1)..3 * (k - 1) + 3];
        }
      }
    }
  }

  /** Every fill of the bar sends exactly the pixel count of the window set just before it. */
  lemma {:induction false} ProgressFillsMatchWindows(bar: LoadingBar, x: int)
    requires bar.Valid()
    ensures FillsMatchWindows(Progress(bar, x))
    decreases bar.xe - x
  {
    if x < bar.xe {
      var step := BarStep(bar, x + 1);
      assert BarRows(bar) == bar.ye - bar.ys;
      assert FillsMatchWindows(step);
      ProgressFillsMatchWindows(bar, x + 1);
      FillsMatchWindowsAppend(step, Progress(bar, x + 1));
    }
  }

  /** The start of `ShowLoading`: driver init, a cleared screen and the title text. */
  method ShowSplash(lcd: Lcd)
    modifies lcd
    ensures lcd.log == old(lcd.log) + LoadingIntro()
  {
    lcd.Emit(Unmodelled("St7735Init"));
    lcd.Emit(ClearScreen(Black));
    lcd.Emit(SetPosition(50, 20));
    lcd.Emit(DrawString("OSCOPE Ver.3", White, X2));
  }

  /** `ShowLoading`: the splash text, then a bar that grows one column per pass. */
  method ShowLoading(lcd: Lcd, bar: LoadingBar)
    requires bar.Valid()
    modifies lcd
    ensures lcd.log == old(lcd.log) + LoadingIntro() + Progress(bar, bar.xs)
  {
    var x: Byte;
    var y: Byte;
    y := (bar.ye - bar.ys) % 256;
    x := bar.xs;

    ShowSplash(lcd);
    ghost var intro := lcd.log;

    // `while (x++ < POSITION_XE)`: the test reads `x` before the increment;
    // the increment that follows the failing test only changes the dead `x`.
    while x < bar.xe
      invariant bar.xs <= x <= 255 && y == BarRows(bar)
      invariant lcd.log + Progress(bar, x) == intro + Progress(bar, bar.xs)
      decreases bar.xe - x
    {
      ghost var before := lcd.log;
      assert Progress(bar, x) == BarStep(bar, x + 1) + Progress(bar, x + 1);
      x := x + 1;
      lcd.Emit(SetWindow(bar.xs, x, bar.ys, bar.ye));
      lcd.Emit(SendColor565(White, (x - bar.xs + 1) * (y + 1)));
      lcd.Emit(UpdateScreen);
      assert lcd.log == before + BarStep(bar, x);
    }
  }

  // ---------------------------------------------------------------------
  // The `P=` readout
  // ---------------------------------------------------------------------

  function DigitChar(d: int): char
    requires 0 <= d <= 9
  {
    "0123456789"[d]
  }

  /** Decimal digits of `n`, most significant first, no leading zeros. */
  function Digits(n: nat): string
    decreases n
  {
    if n < 10 then [DigitChar(n)] else Digits(n / 10) + [DigitChar(n % 10)]
  }

  /** The text `sprintf("%d", v)` writes, without its terminating NUL. */
  function Decimal(v: int): string
  {
    if v < 0 then "-" + Digits(-v) else Digits(v)
  }

  /** The number a string of decimal digits denotes. */
  function DigitsValue(s: string): int
  {
    if s == [] then 0 else 10 * DigitsValue(s[..|s| - 1]) + (s[|s| - 1] as int - '0' as int)
  }

  /** Reading the digits back gives the number. */
  lemma {:induction false} DigitsRoundTrip(n: nat)
    ensures DigitsValue(Digits(n)) == n
    decreases n
  {
    if n >= 10 {
      var s := Digits(n);
      assert s[..|s| - 1] == Digits(n / 10);
      DigitsRoundTrip(n / 10);
    }
  }

  lemma DigitsLength(n: nat)
    requires n < 1000
    ensures |Digits(n)| == if n < 10 then 1 else if n < 100 then 2 else 3
  {
    if n >= 10 {
      DigitsLength(n / 10);
    }
  }

  /** `v`'s text and its terminating NUL fit a `char` array of `size`. */
  predicate FitsIn(v: int, size: nat)
  {
    |Decimal(v)| + 1 <= size
  }

  /** As written, `char str[3]` holds the `%d` text of an `int8_t` exactly for -9..99. */
  lemma FreqTextFitsIff(v: SByte)
    ensures FitsIn(v, 3) <==> -9 <= v <= 99
  {
    DigitsLength(if v < 0 then -(v as int) else v as int);
  }

  /** The size `str` needs for every `int8_t`: "-128" and the terminator. */
  const FreqTextSize := 5

  lemma FreqTextFits(v: SByte)
    ensures FitsIn(v, FreqTextSize)
    ensures v == -128 ==> !FitsIn(v, FreqTextSize - 1)
  {
    DigitsLength(if v < 0 then -(v as int) else v as int);
  }

  // ---------------------------------------------------------------------
  // Main loop state
  // ---------------------------------------------------------------------

  /** The cleared screen and the `P=` readout of `_freq` below the plot. */
  function Readout(c: Config, freq: SByte): seq<Cmd>
  {
    [ ClearScreen(Black), SetPosition(0, c.offsetY + c.height - 8),
      DrawString("P=", White, X1), DrawString(Decimal(freq), White, X1) ]
  }

  /** Everything `BufferShow` sends to the display. */
  function Frame(c: Config, freq: SByte, buf: seq<Byte>): seq<Cmd>
    requires c.Valid() && |buf| == BufferLength(c)
  {
    Readout(c, freq) + Axes(c) + ScaledTrace(c, buf, 0) + [UpdateScreen]
  }

  /** One step of the scheduler: a main-loop pass, or an interrupt handler that is not part of this model. */
  datatype Event =
    | Poll
    | Isr(index: Byte, count: Byte, freq: SByte, samples: seq<Byte>)

  /** The globals a schedule acts on: `_index`, `_count`, `_freq` and `_buffer`. */
  datatype Globals = Globals(index: Byte, count: Byte, freq: SByte, samples: seq<Byte>)

  /** Every interrupt in `schedule` leaves a full buffer of `WIDTH+1` samples. */
  predicate FullBuffers(c: Config, schedule: seq<Event>)
  {
    forall e <- schedule :: e.Isr? ==> |e.samples| == BufferLength(c)
  }

  /** One event from globals `g`: the globals after it and what it draws. */
  function Next(c: Config, g: Globals, e: Event): (r: (Globals, seq<Cmd>))
    requires c.Valid() && |g.samples| == BufferLength(c) && (e.Isr? ==> |e.samples| == BufferLength(c))
    ensures |r.0.samples| == BufferLength(c)
  {
    match e
    case Poll =>
      if g.index > c.width then (Globals(0, 0, 0, g.samples), Frame(c, g.freq, g.samples)) else (g, [])
    case Isr(i, n, f, samples) =>
      (Globals(i, n, f, samples), [])
  }

  /** The first `k` events of `schedule` run from `g`: the globals after them and everything drawn, in order. */
  function Run(c: Config, g: Globals, schedule: seq<Event>, k: nat): (r: (Globals, seq<Cmd>))
    requires c.Valid() && |g.samples| == BufferLength(c) && FullBuffers(c, schedule) && k <= |schedule|
    ensures |r.0.samples| == BufferLength(c)
  {
    if k == 0 then (g, [])
    else
      var prev := Run(c, g, schedule, k - 1);
      var next := Next(c, prev.0, schedule[k - 1]);
      (next.0, prev.1 + next.1)
  }

  /**
   * Without interrupts the loop renders at most once: a full buffer is
   * drawn by the first pass, which clears the cursor and both counters, and every later pass draws nothing.
   */
  lemma {:induction false} RunPollsOnly(c: Config, g: Globals, polls: seq<Event>, k: nat)
    requires c.Valid() && |g.samples| == BufferLength(c) && 1 <= k <= |polls|
    requires forall e <- polls :: e.Poll?
    ensures FullBuffers(c, polls)
    ensures Run(c, g, polls, k) ==
      if g.index > c.width then (Globals(0, 0, 0, g.samples), Frame(c, g.freq, g.samples)) else (g, [])
  {
    assert polls[k - 1] == Poll;
    if k > 1 {
      RunPollsOnly(c, g, polls, k - 1);
      var prev := Run(c, g, polls, k - 1);
      assert Next(c, prev.0, Poll) == (prev.0, []);
      assert prev.1 + [] == prev.1;
    } else {
      var next := Next(c, g, Poll);
      assert [] + next.1 == next.1;
    }
  }

  /**
   * `Valid` keeps `WIDTH` below 255, so the `uint8_t` cursor can pass
   * `WIDTH`: a pass with `_index == WIDTH+1` draws the frame and clears the
   * cursor and both counters.
   */
  lemma HandoffReachable(c: Config, samples: seq<Byte>)
    requires c.Valid() && |samples| == BufferLength(c)
    ensures c.width + 1 <= 255
    ensures Run(c, Globals(c.width + 1, 0, 0, samples), [Poll], 1) == (Globals(0, 0, 0, samples), Frame(c, 0, samples))
  {
    RunPollsOnly(c, Globals(c.width + 1, 0, 0, samples), [Poll], 1);
  }

  /** The firmware's globals and the global interrupt flag. */
  class Scope {
    const cfg: Config
    const lcd: Lcd
    /** `_buffer`, one element longer than declared (see `BufferLength`). */
    const buffer: array<Byte>
    /** `_index`, the sample cursor. */
    var index: Byte
    /** `_count` */
    var count: Byte
    /** `_freq`, shown as `P=`. */
    var freq: SByte
    /** The I flag of SREG, set by `sei()` and cleared by `cli()`. */
    var interruptsEnabled: bool

    ghost predicate Valid()
    {
      cfg.Valid() && buffer.Length == BufferLength(cfg)
    }

    constructor (c: Config, display: Lcd)
      requires c.Valid()
      ensures Valid() && cfg == c && lcd == display && fresh(buffer)
      ensures index == 0 && count == 0 && freq == 0 && !interruptsEnabled
    {
      cfg := c;
      lcd := display;
      buffer := new Byte[BufferLength(c)];
      index := 0;
      count := 0;
      freq := 0;
      interruptsEnabled := false;
    }

    /** The trace loop of `BufferShow`; it runs only with interrupts masked. */
    method DrawTrace()
      requires Valid() && !interruptsEnabled
      modifies lcd
      ensures lcd.log == old(lcd.log) + ScaledTrace(cfg, buffer[..], 0)
    {
      ghost var buf := buffer[..];
      for i := 0 to cfg.width
        invariant lcd.log + ScaledTrace(cfg, buf, i) == old(lcd.log) + ScaledTrace(cfg, buf, 0)
      {
        ghost var before := lcd.log;
        ghost var segment := ScaledSegment(cfg, buf, i);
        assert ScaledTrace(cfg, buf, i) == [segment] + ScaledTrace(cfg, buf, i + 1);
        assert buffer[i] == buf[i] && buffer[i + 1] == buf[i + 1];
        lcd.Emit(DrawLine(i + cfg.offsetX, i + cfg.offsetX + 1,
                          ScaledRow(cfg, buffer[i]), ScaledRow(cfg, buffer[i + 1]), White));
        assert lcd.log == before + [segment];
        assert lcd.log + ScaledTrace(cfg, buf, i + 1) == before + ScaledTrace(cfg, buf, i);
      }
    }

    /** The first part of `BufferShow`: clear the screen and print `P=` and `_freq` into `str`. */
    method ShowReadout()
      requires Valid()
      modifies lcd
      ensures lcd.log == old(lcd.log) + Readout(cfg, freq)
      ensures FitsIn(freq, FreqTextSize)
    {
      lcd.Emit(ClearScreen(Black));
      lcd.Emit(SetPosition(0, cfg.offsetY + cfg.height - 8));
      lcd.Emit(DrawString("P=", White, X1));
      var str := Decimal(freq);
      FreqTextFits(freq);
      lcd.Emit(DrawString(str, White, X1));
    }

    /**
     * `BufferShow`: masks interrupts, draws the readout, the axes and the
     * trace for the state on entry, and enables interrupts again.
     */
    method BufferShow()
      requires Valid()
      modifies this, lcd
      ensures Valid() && interruptsEnabled
      ensures index == old(index) && count == old(count) && freq == old(freq)
      ensures lcd.log == old(lcd.log) + Frame(cfg, freq, buffer[..])
    {
      ghost var buf := buffer[..];
      interruptsEnabled := false;
      ShowReadout();
      ghost var readout := lcd.log;
      AxisShow(lcd, cfg);
      DrawTrace();
      assert lcd.log == readout + Axes(cfg) + ScaledTrace(cfg, buf, 0);
      lcd.Emit(UpdateScreen);
      assert Frame(cfg, freq, buf) == Readout(cfg, freq) + Axes(cfg) + ScaledTrace(cfg, buf, 0) + [UpdateScreen];
      interruptsEnabled := true;
    }

    /**
     * One pass of the `while(1)` loop: a buffer that holds more than
     * `WIDTH` samples is rendered and the cursor and both counters are
     * cleared; otherwise nothing changes.
     */
    method Iterate()
      requires Valid() && interruptsEnabled
      modifies this, lcd
      ensures Valid()
      ensures if old(index) > cfg.width then
                && index == 0 && count == 0 && freq == 0 && interruptsEnabled
                && lcd.log == old(lcd.log) + Frame(cfg, old(freq), buffer[..])
              else
                && index == old(index) && count == old(count) && freq == old(freq)
                && interruptsEnabled == old(interruptsEnabled) && lcd.log == old(lcd.log)
    {
      if index > cfg.width {
        BufferShow();
        index := 0;
        count := 0;
        freq := 0;
      }
    }

    /**
     * An interrupt handler (ADC complete, the frequency counter), which is
     * not part of this model: it may run only while interrupts are enabled
     * and may leave the cursor, the counters and the samples in any state.
     */
    method Interrupt(newIndex: Byte, newCount: Byte, newFreq: SByte, samples: seq<Byte>)
      requires Valid() && interruptsEnabled && |samples| == buffer.Length
      modifies this, buffer
      ensures Valid() && interruptsEnabled
      ensures index == newIndex && count == newCount && freq == newFreq && buffer[..] == samples
    {
      index := newIndex;
      count := newCount;
      freq := newFreq;
      forall k | 0 <= k < buffer.Length {
        buffer[k] := samples[k];
      }
    }

    /** The globals as one value. */
    ghost function Snapshot(): Globals
      reads this, buffer
    {
      Globals(index, count, freq, buffer[..])
    }

    /** One event of a schedule: a main-loop pass or an interrupt. */
    method Dispatch(e: Event)
      requires Valid() && interruptsEnabled && (e.Isr? ==> |e.samples| == BufferLength(cfg))
      modifies this, lcd, buffer
      ensures Valid() && interruptsEnabled
      ensures var r := Next(cfg, old(Snapshot()), e);
              Snapshot() == r.0 && lcd.log == old(lcd.log) + r.1
    {
      match e
      case Poll =>
        Iterate();
      case Isr(i, n, f, samples) =>
        Interrupt(i, n, f, samples);
    }

    /** Event `k` of a schedule, taking the run of the first `k` events one event further. */
    method Pass(ghost g0: Globals, ghost log0: seq<Cmd>, schedule: seq<Event>, k: nat)
      requires Valid() && interruptsEnabled && FullBuffers(cfg, schedule) && k < |schedule|
      requires |g0.samples| == BufferLength(cfg)
      requires Snapshot() == Run(cfg, g0, schedule, k).0 && lcd.log == log0 + Run(cfg, g0, schedule, k).1
      modifies this, lcd, buffer
      ensures Valid() && interruptsEnabled
      ensures Snapshot() == Run(cfg, g0, schedule, k + 1).0 && lcd.log == log0 + Run(cfg, g0, schedule, k + 1).1
    {
      ghost var prev := Run(cfg, g0, schedule, k);
      ghost var next := Next(cfg, prev.0, schedule[k]);
      assert Run(cfg, g0, schedule, k + 1) == (next.0, prev.1 + next.1);
      Dispatch(schedule[k]);
    }

    /**
     * `StartScope` after the timer and converter set-up: `sei()`, then the
     * endless loop, here run over a finite interleaving of loop passes and
     * interrupts.  Interrupts are enabled at every pass.
     */
    method StartScope(schedule: seq<Event>)
      requires Valid() && FullBuffers(cfg, schedule)
      modifies this, lcd, buffer
      ensures Valid() && interruptsEnabled
      ensures var r := Run(cfg, old(Snapshot()), schedule, |schedule|);
              Snapshot() == r.0 && lcd.log == old(lcd.log) + r.1
    {
      interruptsEnabled := true;
      ghost var g0 := Snapshot();
      ghost var log0 := lcd.log;
      for k := 0 to |schedule|
        invariant Valid() && interruptsEnabled
        invariant Snapshot() == Run(cfg, g0, schedule, k).0
        invariant lcd.log == log0 + Run(cfg, g0, schedule, k).1
      {
        Pass(g0, log0, schedule, k);
      }
    }
  }
}
