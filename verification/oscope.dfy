/**
 * The first firmware revision, lib/oscope.c: the main loop that hands a
 * full sample buffer to the renderer while the scope screen is selected,
 * the trace drawn right to left with the halving sample-to-row map, the
 * settings menu, and the range-control output lines.
 */
module Oscope {
  import opened Avr
  import opened Display

  const Black := 0x0000
  const White := 0xffff
  /** Background of the menu title bar. */
  const TitleColour := 0x075f
  /** Height, in pixels, of the title bar and of every menu row (the local `height`). */
  const ItemHeight := 20
  /** Left margin of menu text (the local `offset_x`). */
  const ItemTextX := 10

  /**
   * The build-time constants of the header: plot size and placement, the
   * menu window width, and the bit numbers of the three range lines.
   */
  datatype Config = Config(
    width: int, height: int, offsetX: int, offsetY: int, sizeX: int,
    volt1: nat, volt2: nat, volt3: nat)
  {
    predicate Valid()
    {
      // `uint8_t i = WIDTH-1` must hold the last column
      && 1 <= width <= 256
      && 0 <= height && 0 <= offsetX && 0 <= offsetY
      // `(SIZE_X+1)*(height+1)` is evaluated in 16-bit `int`
      && 0 <= sizeX && (sizeX + 1) * (ItemHeight + 1) <= IntMax
      && volt1 < 8 && volt2 < 8 && volt3 < 8
    }
  }

  // ---------------------------------------------------------------------
  // Sample-to-row map and the trace
  // ---------------------------------------------------------------------

  /**
   * Screen row of sample `s`: `OFFSET_Y+(HEIGHT-(s>>1))`.  The sample is
   * non-negative, so the shift is a halving rounded down.
   */
  function Row(c: Config, s: Byte): (row: int)
    ensures c.offsetY + c.height - 127 <= row <= c.offsetY + c.height
  {
    c.offsetY + (c.height - s / 2)
  }

  /** Zero sits on the plot's bottom edge, larger samples draw higher, and the map merges exactly the pairs `2k, 2k+1`. */
  lemma RowShape(c: Config, s: Byte, t: Byte)
    ensures Row(c, 0) == c.offsetY + c.height
    ensures s <= t ==> Row(c, t) <= Row(c, s)
    ensures Row(c, s) == Row(c, t) <==> s / 2 == t / 2
    ensures Row(c, 254) == Row(c, 255)
  {
  }

  /** The segment drawn when the counter is `i`: column `i-1` to column `i`. */
  function Segment(c: Config, buf: seq<Byte>, i: int): Cmd
    requires 1 <= i < |buf|
  {
    DrawLine(i - 1 + c.offsetX, i + c.offsetX, Row(c, buf[i - 1]), Row(c, buf[i]), White)
  }

  /** The segments drawn while the counter walks from `i` down to 1. */
  function Trace(c: Config, buf: seq<Byte>, i: nat): seq<Cmd>
    requires i < |buf|
  {
    if i == 0 then [] else [Segment(c, buf, i)] + Trace(c, buf, i - 1)
  }

  lemma {:induction false} TraceShape(c: Config, buf: seq<Byte>, i: nat)
    requires i < |buf|
    ensures |Trace(c, buf, i)| == i
    ensures forall k :: 0 <= k < i ==> Trace(c, buf, i)[k] == Segment(c, buf, i - k)
  {
    if i > 0 {
      TraceShape(c, buf, i - 1);
    }
  }

  /** The segments of a whole buffer: the counter starts at `WIDTH-1`. */
  function FullTrace(c: Config, buf: seq<Byte>): seq<Cmd>
    requires c.Valid() && |buf| == c.width
  {
    Trace(c, buf, c.width - 1)
  }

  /** `cmd` is a white line from column `x-1` to column `x`, both rows inside the map's range. */
  predicate JoinsColumns(c: Config, cmd: Cmd, x: int)
  {
    && cmd.DrawLine?
    && cmd.x1 == x && cmd.x0 == x - 1
    && c.offsetY + c.height - 127 <= cmd.y0 <= c.offsetY + c.height
    && c.offsetY + c.height - 127 <= cmd.y1 <= c.offsetY + c.height
    && cmd.colour == White
  }

  /**
   * A full trace has `WIDTH-1` lines; the k-th joins column `WIDTH-2-k` to
   * `WIDTH-1-k` (offset by `OFFSET_X`), so the columns walk downward from the
   * right edge and every row lies in the plot's lower half-range.
   */
  lemma TraceColumns(c: Config, buf: seq<Byte>)
    requires c.Valid() && |buf| == c.width
    ensures |FullTrace(c, buf)| == c.width - 1
    ensures forall k :: 0 <= k < c.width - 1 ==>
      JoinsColumns(c, FullTrace(c, buf)[k], c.offsetX + c.width - 1 - k)
  {
    TraceShape(c, buf, c.width - 1);
  }

  /** The trace up to counter `i` reads only `buf[0..i]`. */
  lemma {:induction false} TraceReadsOnlyPrefix(c: Config, a: seq<Byte>, b: seq<Byte>, i: nat)
    requires i < |a| && i < |b| && a[..i + 1] == b[..i + 1]
    ensures Trace(c, a, i) == Trace(c, b, i)
  {
    if i > 0 {
      assert a[i] == a[..i + 1][i] && b[i] == b[..i + 1][i];
      assert a[i - 1] == a[..i + 1][i - 1] && b[i - 1] == b[..i + 1][i - 1];
      assert a[..i] == a[..i + 1][..i] && b[..i] == b[..i + 1][..i];
      TraceReadsOnlyPrefix(c, a, b, i - 1);
    }
  }

  /** Everything `BufferShow` sends to the display for buffer contents `buf`. */
  function Frame(c: Config, buf: seq<Byte>): seq<Cmd>
    requires c.Valid() && |buf| == c.width
  {
    [ClearScreen(Black), SetPosition(0, c.offsetY + c.height - 8), Unmodelled("ShowAxis")]
    + FullTrace(c, buf)
    + [Unmodelled("ShowValues"), UpdateScreen]
  }

  // ---------------------------------------------------------------------
  // Settings menu
  // ---------------------------------------------------------------------

  /** Fill count of the title bar and of every row: `(SIZE_X+1)*(height+1)`. */
  function Area(c: Config): int
  {
    (c.sizeX + 1) * (ItemHeight + 1)
  }

  /**
   * Top row of menu item `i`: the `uint8_t` `step_y`, which starts at 16
   * and gains one item height, modulo 256, before each row.
   */
  function ItemTop(i: nat): Byte
  {
    if i == 0 then (16 + ItemHeight) % 256 else (ItemTop(i - 1) + ItemHeight) % 256
  }

  /** While `step_y` does not wrap, item `i` starts at `36 + 20*i`, 11 pixels below the title bar. */
  lemma {:induction false} ItemTopNoWrap(i: nat)
    requires 36 + 20 * i <= 255
    ensures ItemTop(i) == 36 + 20 * i
    ensures ItemTop(i) >= 5 + ItemHeight + 11
  {
    if i > 0 {
      ItemTopNoWrap(i - 1);
      assert ItemTop(i - 1) + ItemHeight == 36 + 20 * i < 256;
    }
  }

  /** Background and text colour of row `i`: inverted exactly for row `selector-1`. */
  function RowColours(i: int, selector: int): (int, int)
  {
    if i == selector - 1 then (White, Black) else (Black, White)
  }

  function MenuTitle(c: Config): seq<Cmd>
  {
    [ SetWindow(0, c.sizeX, 5, 5 + ItemHeight), SendColor565(TitleColour, Area(c)),
      SetPosition(ItemTextX, 9), DrawString("MENU-SETTINGS ", Black, X2) ]
  }

  function MenuRow(c: Config, items: seq<string>, selector: int, i: nat): seq<Cmd>
    requires i < |items|
  {
    var y := ItemTop(i);
    var colours := RowColours(i, selector);
    [ SetWindow(0, c.sizeX, y, y + ItemHeight), SendColor565(colours.0, Area(c)),
      SetPosition(ItemTextX, y + 3), DrawString(items[i], colours.1, X2) ]
  }

  /** Rows `i` up to `count-1`, in order. */
  function MenuRows(c: Config, items: seq<string>, count: nat, selector: int, i: nat): seq<Cmd>
    requires count <= |items|
    decreases count - i
  {
    if i >= count then [] else MenuRow(c, items, selector, i) + MenuRows(c, items, count, selector, i + 1)
  }

  /** Everything `ShowItems` sends to the display. */
  function MenuFrame(c: Config, items: seq<string>, count: nat, selector: int): seq<Cmd>
    requires count <= |items|
  {
    MenuTitle(c) + MenuRows(c, items, count, selector, 0) + [UpdateScreen]
  }

  /** Row `j` occupies the four commands at `4*(j-i)` of the rows drawn from `i`. */
  lemma {:induction false} MenuRowsShape(c: Config, items: seq<string>, count: nat, selector: int, i: nat)
    requires count <= |items| && i <= count
    ensures |MenuRows(c, items, count, selector, i)| == 4 * (count - i)
    ensures forall j :: i <= j < count ==>
      MenuRows(c, items, count, selector, i)[4 * (j - i)..4 * (j - i) + 4] == MenuRow(c, items, selector, j)
    decreases count - i
  {
    if i < count {
      MenuRowsShape(c, items, count, selector, i + 1);
      var rest := MenuRows(c, items, count, selector, i + 1);
      var all := MenuRows(c, items, count, selector, i);
      assert all == MenuRow(c, items, selector, i) + rest;
      forall j | i <= j < count
        ensures all[4 * (j - i)..4 * (j - i) + 4] == MenuRow(c, items, selector, j)
      {
        if j > i {
          assert all[4 * (j - i)..4 * (j - i) + 4] == rest[4 * (j - i - 1)..4 * (j - i - 1) + 4];
        }
      }
    }
  }

  /** Rows from `i` on hold one white fill when row `selector-1` is among them, none otherwise. */
  lemma {:induction false} MenuRowsHighlights(c: Config, items: seq<string>, count: nat, selector: int, i: nat)
    requires count <= |items|
    ensures CountFills(MenuRows(c, items, count, selector, i), White) ==
            if i <= selector - 1 < count then 1 else 0
    decreases count - i
  {
    if i < count {
      var row := MenuRow(c, items, selector, i);
      CountFillsAppend(row, MenuRows(c, items, count, selector, i + 1), White);
      assert CountFills(row, White) == if i == selector - 1 then 1 else 0 by {
        CountFillsQuad(row, White);
      }
      MenuRowsHighlights(c, items, count, selector, i + 1);
    }
  }

  /**
   * A menu has one highlighted row when `1 <= selector <= count`, and none
   * otherwise (in particular none for selector 0, the scope screen).
   */
  lemma MenuHighlights(c: Config, items: seq<string>, count: nat, selector: int)
    requires count <= |items|
    ensures CountFills(MenuFrame(c, items, count, selector), White) ==
            if 1 <= selector <= count then 1 else 0
  {
    var title := MenuTitle(c);
    var rows := MenuRows(c, items, count, selector, 0);
    CountFillsAppend(title, rows, White);
    CountFillsAppend(title + rows, [UpdateScreen], White);
    assert CountFills(title, White) == 0 by {
      CountFillsQuad(title, White);
    }
    MenuRowsHighlights(c, items, count, selector, 0);
  }

  lemma {:induction false} MenuRowsFill(c: Config, items: seq<string>, count: nat, selector: int, i: nat)
    requires count <= |items|
    ensures FillsMatchWindows(MenuRows(c, items, count, selector, i))
    ensures MenuRows(c, items, count, selector, i) != [] ==> MenuRows(c, items, count, selector, i)[0].SetWindow?
    decreases count - i
  {
    if i < count {
      MenuRowsFill(c, items, count, selector, i + 1);
      FillsMatchWindowsAppend(MenuRow(c, items, selector, i), MenuRows(c, items, count, selector, i + 1));
    }
  }

  /** Every fill of the menu (title and rows) sends exactly the pixel count of its window. */
  lemma MenuFillsMatchWindows(c: Config, items: seq<string>, count: nat, selector: int)
    requires count <= |items|
    ensures FillsMatchWindows(MenuFrame(c, items, count, selector))
  {
    var title := MenuTitle(c);
    var rows := MenuRows(c, items, count, selector, 0);
    MenuRowsFill(c, items, count, selector, 0);
    FillsMatchWindowsAppend(title, rows);
    FillsMatchWindowsAppend(title + rows, [UpdateScreen]);
  }

  /**
   * In the drawn menu, row `j` is filled white with black text exactly when
   * `j == selector-1`, and filled black with white text otherwise.
   */
  lemma MenuRowColours(c: Config, items: seq<string>, count: nat, selector: int)
    requires count <= |items|
    ensures |MenuFrame(c, items, count, selector)| == 4 * count + 5
    ensures forall j :: 0 <= j < count ==>
      && MenuFrame(c, items, count, selector)[4 + 4 * j + 1]
         == SendColor565(if j == selector - 1 then White else Black, Area(c))
      && MenuFrame(c, items, count, selector)[4 + 4 * j + 3]
         == DrawString(items[j], if j == selector - 1 then Black else White, X2)
  {
    var rows := MenuRows(c, items, count, selector, 0);
    MenuRowsShape(c, items, count, selector, 0);
    forall j | 0 <= j < count
      ensures && MenuFrame(c, items, count, selector)[4 + 4 * j + 1]
                 == SendColor565(if j == selector - 1 then White else Black, Area(c))
              && MenuFrame(c, items, count, selector)[4 + 4 * j + 3]
                 == DrawString(items[j], if j == selector - 1 then Black else White, X2)
    {
      var frame := MenuFrame(c, items, count, selector);
      var row := MenuRow(c, items, selector, j);
      assert frame == MenuTitle(c) + rows + [UpdateScreen];
      assert rows[4 * j..4 * j + 4] == row;
      assert frame[4 + 4 * j + 1] == row[1] && frame[4 + 4 * j + 3] == row[3];
    }
  }

  /** Row `j`'s window in the drawn menu spans the 21 rows from `step_y`. */
  lemma MenuRowWindow(c: Config, items: seq<string>, count: nat, selector: int, j: nat)
    requires count <= |items| && j < count
    ensures |MenuFrame(c, items, count, selector)| == 4 * count + 5
    ensures MenuFrame(c, items, count, selector)[4 + 4 * j] == SetWindow(0, c.sizeX, ItemTop(j), ItemTop(j) + ItemHeight)
  {
    var rows := MenuRows(c, items, count, selector, 0);
    MenuRowsShape(c, items, count, selector, 0);
    assert MenuFrame(c, items, count, selector) == MenuTitle(c) + rows + [UpdateScreen];
    var row := MenuRow(c, items, selector, j);
    assert rows[4 * j..4 * j + 4] == row;
    assert MenuFrame(c, items, count, selector)[4 + 4 * j] == row[0];
  }

  /**
   * With at most ten items every row window ends by row 255, the last row
   * a `uint8_t` coordinate can name: row `j` covers rows `36+20j` to `56+20j`.
   */
  lemma MenuRowsOnPanel(c: Config, items: seq<string>, count: nat, selector: int)
    requires count <= |items| && count <= 10
    ensures |MenuFrame(c, items, count, selector)| == 4 * count + 5
    ensures forall j :: 0 <= j < count ==>
      MenuFrame(c, items, count, selector)[4 + 4 * j] == SetWindow(0, c.sizeX, 36 + 20 * j, 56 + 20 * j)
    ensures forall j :: 0 <= j < count ==> 56 + 20 * j <= 255
  {
    MenuRowsShape(c, items, count, selector, 0);
    forall j | 0 <= j < count
      ensures MenuFrame(c, items, count, selector)[4 + 4 * j] == SetWindow(0, c.sizeX, 36 + 20 * j, 56 + 20 * j)
    {
      MenuRowWindow(c, items, count, selector, j);
      ItemTopNoWrap(j);
    }
  }

  /** The eleventh row's window would end on row 256, past what a `uint8_t` coordinate can name. */
  lemma EleventhRowLeavesPanel()
    ensures ItemTop(10) == 236 && ItemTop(10) + ItemHeight == 256
  {
    ItemTopNoWrap(10);
  }

  /** One pass of `ShowItems`' loop: the window, fill and text of item `i` at row `stepY`. */
  method ShowItem(lcd: Lcd, c: Config, items: seq<string>, selector: Byte, i: Byte, stepY: Byte, area: int)
    requires c.Valid() && i < |items| && stepY == ItemTop(i) && area == Area(c)
    modifies lcd
    ensures lcd.log == old(lcd.log) + MenuRow(c, items, selector, i)
  {
    var height: Byte := ItemHeight;
    var offsetX: Byte := ItemTextX;
    if i == selector - 1 {
      lcd.Emit(SetWindow(0, c.sizeX, stepY, stepY + height));
      lcd.Emit(SendColor565(White, area));
      lcd.Emit(SetPosition(offsetX, stepY + 3));
      lcd.Emit(DrawString(items[i], Black, X2));
    } else {
      lcd.Emit(SetWindow(0, c.sizeX, stepY, stepY + height));
      lcd.Emit(SendColor565(Black, area));
      lcd.Emit(SetPosition(offsetX, stepY + 3));
      lcd.Emit(DrawString(items[i], White, X2));
    }
  }

  /** The loop of `ShowItems`: rows `0..count-1`, with `step_y` already past the title. */
  method ShowRows(lcd: Lcd, c: Config, items: seq<string>, count: Byte, selector: Byte, stepY0: Byte, area: int)
    requires c.Valid() && count <= |items| && stepY0 == ItemTop(0) && area == Area(c)
    modifies lcd
    ensures lcd.log == old(lcd.log) + MenuRows(c, items, count, selector, 0)
  {
    var i: Byte := 0;
    var height: Byte := ItemHeight;
    var stepY := stepY0;
    while i < count
      invariant i <= count
      invariant stepY == ItemTop(i)
      invariant lcd.log + MenuRows(c, items, count, selector, i)
                == old(lcd.log) + MenuRows(c, items, count, selector, 0)
      decreases count - i
    {
      ghost var before := lcd.log;
      ShowItem(lcd, c, items, selector, i, stepY, area);
      ghost var row := MenuRow(c, items, selector, i);
      ghost var rest := MenuRows(c, items, count, selector, i + 1);
      assert MenuRows(c, items, count, selector, i) == row + rest;
      assert lcd.log + rest == before + (row + rest);
      stepY := (stepY + height) % 256;
      i := i + 1;
    }
    assert MenuRows(c, items, count, selector, i) == [];
  }

  /** `ShowItems`: draws the title bar and one row per item, then pushes the frame. */
  method ShowItems(lcd: Lcd, c: Config, items: seq<string>, count: Byte, selector: Byte)
    requires c.Valid() && count <= |items|
    modifies lcd
    ensures lcd.log == old(lcd.log) + MenuFrame(c, items, count, selector)
  {
    var height: Byte := ItemHeight;
    var stepY: Byte := 16;
    var offsetX: Byte := ItemTextX;
    var area := (c.sizeX + 1) * (height + 1);

    lcd.Emit(SetWindow(0, c.sizeX, 5, 5 + height));
    lcd.Emit(SendColor565(TitleColour, area));
    lcd.Emit(SetPosition(offsetX, 9));
    lcd.Emit(DrawString("MENU-SETTINGS ", Black, X2));
    stepY := (stepY + height) % 256;
    ghost var title := lcd.log;
    assert title == old(lcd.log) + MenuTitle(c);
    assert stepY == ItemTop(0) && area == Area(c);

    ShowRows(lcd, c, items, count, selector, stepY, area);
    assert lcd.log == title + MenuRows(c, items, count, selector, 0);
    lcd.Emit(UpdateScreen);
  }

  // ---------------------------------------------------------------------
  // Range-control lines
  // ---------------------------------------------------------------------

  /** The direction register after `PortsInit`: `DDR |= (1 << V1) | (1 << V2) | (1 << V3)`. */
  function RangeOutputs(c: Config, ddr: bv8): bv8
    requires c.Valid()
  {
    ddr | (BitMask(c.volt1) | BitMask(c.volt2) | BitMask(c.volt3))
  }

  /** The port register after `PortsInit`: `PORT |= 1 << V1`, then `PORT &= ~((1 << V2) | (1 << V3))`. */
  function RangeLevels(c: Config, port: bv8): bv8
    requires c.Valid()
  {
    (port | BitMask(c.volt1)) & !(BitMask(c.volt2) | BitMask(c.volt3))
  }

  /** The three range lines become outputs; every other direction bit keeps its value. */
  lemma RangeOutputsBits(c: Config, ddr: bv8)
    requires c.Valid()
    ensures forall b: nat :: b < 8 ==>
      (IsSet(RangeOutputs(c, ddr), b) == (IsSet(ddr, b) || b == c.volt1 || b == c.volt2 || b == c.volt3))
  {
    SetThreeBits(c.volt1, c.volt2, c.volt3, ddr);
  }

  /**
   * Range line 1 is driven high, lines 2 and 3 low (the clear comes second,
   * so it wins if the bit numbers coincide); every other port bit is kept.
   */
  lemma RangeLevelsBits(c: Config, port: bv8)
    requires c.Valid()
    ensures forall b: nat :: b < 8 ==>
      (IsSet(RangeLevels(c, port), b) == (b != c.volt2 && b != c.volt3 && (b == c.volt1 || IsSet(port, b))))
  {
    SetOneClearTwoBits(c.volt1, c.volt2, c.volt3, port);
  }

  /** With three distinct line numbers, exactly line 1 of the three is driven high. */
  lemma RangeLevelsExclusive(c: Config, port: bv8)
    requires c.Valid() && c.volt1 != c.volt2 && c.volt1 != c.volt3
    ensures IsSet(RangeLevels(c, port), c.volt1)
    ensures !IsSet(RangeLevels(c, port), c.volt2) && !IsSet(RangeLevels(c, port), c.volt3)
  {
    RangeLevelsBits(c, port);
  }

  /** Running `PortsInit` twice leaves the registers as running it once. */
  lemma PortsInitIdempotent(c: Config, ddr: bv8, port: bv8)
    requires c.Valid()
    ensures RangeOutputs(c, RangeOutputs(c, ddr)) == RangeOutputs(c, ddr)
    ensures RangeLevels(c, RangeLevels(c, port)) == RangeLevels(c, port)
  {
  }

  // ---------------------------------------------------------------------
  // Main loop state
  // ---------------------------------------------------------------------

  /** One step of the scheduler: a main-loop pass, or an interrupt handler that is not part of this model. */
  datatype Event =
    | Poll
    | Isr(index: Byte, selector: Byte, samples: seq<Byte>, port: bv8)

  /** The globals a schedule acts on: `_index`, `_selector`, `_buffer` and the range port. */
  datatype Globals = Globals(index: Byte, selector: Byte, samples: seq<Byte>, port: bv8)

  /** Every interrupt in `schedule` leaves a full buffer of `WIDTH` samples. */
  predicate FullBuffers(c: Config, schedule: seq<Event>)
  {
    forall e <- schedule :: e.Isr? ==> |e.samples| == c.width
  }

  /** One event from globals `g`: the globals after it and what it draws. */
  function Next(c: Config, g: Globals, e: Event): (r: (Globals, seq<Cmd>))
    requires c.Valid() && |g.samples| == c.width && (e.Isr? ==> |e.samples| == c.width)
    ensures |r.0.samples| == c.width
  {
    match e
    case Poll =>
      if g.selector == 0 && g.index > c.width then (g.(index := 0), Frame(c, g.samples)) else (g, [])
    case Isr(i, sel, samples, port) =>
      (Globals(i, sel, samples, port), [])
  }

  /** The first `k` events of `schedule` run from `g`: the globals after them and everything drawn, in order. */
  function Run(c: Config, g: Globals, schedule: seq<Event>, k: nat): (r: (Globals, seq<Cmd>))
    requires c.Valid() && |g.samples| == c.width && FullBuffers(c, schedule) && k <= |schedule|
    ensures |r.0.samples| == c.width
  {
    if k == 0 then (g, [])
    else
      var prev := Run(c, g, schedule, k - 1);
      var next := Next(c, prev.0, schedule[k - 1]);
      (next.0, prev.1 + next.1)
  }

  /**
   * Without interrupts the loop renders at most once: a full buffer is
   * drawn by the first pass, which clears the cursor, and every later pass draws nothing.
   */
  lemma {:induction false} RunPollsOnly(c: Config, g: Globals, polls: seq<Event>, k: nat)
    requires c.Valid() && |g.samples| == c.width && 1 <= k <= |polls|
    requires forall e <- polls :: e.Poll?
    ensures FullBuffers(c, polls)
    ensures Run(c, g, polls, k) ==
      if g.selector == 0 && g.index > c.width then (g.(index := 0), Frame(c, g.samples)) else (g, [])
  {
    assert polls[k - 1] == Poll;
    if k > 1 {
      RunPollsOnly(c, g, polls, k - 1);
      var prev := Run(c, g, polls, k - 1);
      assert Next(c, prev.0, Poll) == (prev.0, []);
      assert prev.1 + [] == prev.1;
    } else {
      var next := Next(c, g, Poll);
      assert [] + next.1 == next.1;
    }
  }

  /**
   * `_index` is a `uint8_t`, so with `WIDTH` 255 or 256 the test
   * `_index > WIDTH` never holds and passes of the loop draw nothing.
   */
  lemma WideBufferNeverShown(c: Config, g: Globals, polls: seq<Event>, k: nat)
    requires c.Valid() && c.width >= 255 && |g.samples| == c.width && 1 <= k <= |polls|
    requires forall e <- polls :: e.Poll?
    ensures FullBuffers(c, polls)
    ensures Run(c, g, polls, k) == (g, [])
  {
    RunPollsOnly(c, g, polls, k);
  }

  /** The firmware's globals, the range-control registers, and the global interrupt flag. */
  class Scope {
    const cfg: Config
    const lcd: Lcd
    /** `_buffer[WIDTH]` */
    const buffer: array<Byte>
    /** `_index`, the sample cursor. */
    var index: Byte
    /** `_selector`: 0 is the scope screen, `k > 0` the menu with row `k-1` selected. */
    var selector: Byte
    /** The I flag of SREG, set by `sei()` and cleared by `cli()`. */
    var interruptsEnabled: bool
    /** `VOLT_CONTROL_DDR` and `VOLT_CONTROL_PORT`. */
    var voltDdr: bv8
    var voltPort: bv8

    ghost predicate Valid()
    {
      cfg.Valid() && buffer.Length == cfg.width
    }

    constructor (c: Config, display: Lcd)
      requires c.Valid()
      ensures Valid() && cfg == c && lcd == display && fresh(buffer)
      ensures index == 0 && selector == 0 && !interruptsEnabled
    {
      cfg := c;
      lcd := display;
      buffer := new Byte[c.width];
      index := 0;
      selector := 0;
      interruptsEnabled := false;
    }

    /** `PortsInit`: the read-modify-write updates of the two range registers. */
    method PortsInit()
      requires Valid()
      modifies this
      ensures voltDdr == RangeOutputs(cfg, old(voltDdr))
      ensures voltPort == RangeLevels(cfg, old(voltPort))
      ensures index == old(index) && selector == old(selector)
      ensures interruptsEnabled == old(interruptsEnabled)
    {
      ghost var ddr0, port0 := voltDdr, voltPort;
      voltDdr := voltDdr | (BitMask(cfg.volt1) | BitMask(cfg.volt2) | BitMask(cfg.volt3));
      assert voltDdr == RangeOutputs(cfg, ddr0);
      voltPort := voltPort | BitMask(cfg.volt1);
      voltPort := voltPort & !(BitMask(cfg.volt2) | BitMask(cfg.volt3));
      assert voltPort == RangeLevels(cfg, port0);
    }

    /** The trace loop of `BufferShow`; it runs only with interrupts masked. */
    method DrawTrace()
      requires Valid() && !interruptsEnabled
      modifies lcd
      ensures lcd.log == old(lcd.log) + FullTrace(cfg, buffer[..])
    {
      var i: Byte := cfg.width - 1;
      while i > 0
        invariant lcd.log + Trace(cfg, buffer[..], i) == old(lcd.log) + Trace(cfg, buffer[..], cfg.width - 1)
      {
        lcd.Emit(DrawLine(i - 1 + cfg.offsetX, i + cfg.offsetX,
                          Row(cfg, buffer[i - 1]), Row(cfg, buffer[i]), White));
        i := i - 1;
      }
    }

    /**
     * `BufferShow`: masks interrupts, draws the frame for the buffer as it
     * is on entry, and returns with interrupts enabled whatever the saved
     * SREG held, because `sei()` follows its restore.
     */
    method BufferShow()
      requires Valid()
      modifies this, lcd
      ensures Valid() && interruptsEnabled
      ensures index == old(index) && selector == old(selector)
      ensures voltDdr == old(voltDdr) && voltPort == old(voltPort)
      ensures lcd.log == old(lcd.log) + Frame(cfg, buffer[..])
    {
      var sreg := interruptsEnabled;
      interruptsEnabled := false;
      lcd.Emit(ClearScreen(Black));
      lcd.Emit(SetPosition(0, cfg.offsetY + cfg.height - 8));
      lcd.Emit(Unmodelled("ShowAxis"));
      DrawTrace();
      lcd.Emit(Unmodelled("ShowValues"));
      lcd.Emit(UpdateScreen);
      interruptsEnabled := sreg;
      interruptsEnabled := true;
    }

    /**
     * One pass of the `while(1)` loop: on the scope screen a buffer that
     * holds more than `WIDTH` samples is rendered and the cursor reset;
     * otherwise nothing changes.
     */
    method Iterate()
      requires Valid() && interruptsEnabled
      modifies this, lcd
      ensures Valid() && selector == old(selector)
      ensures voltDdr == old(voltDdr) && voltPort == old(voltPort)
      ensures if old(selector) == 0 && old(index) > cfg.width then
                index == 0 && interruptsEnabled && lcd.log == old(lcd.log) + Frame(cfg, buffer[..])
              else
                index == old(index) && interruptsEnabled == old(interruptsEnabled) && lcd.log == old(lcd.log)
    {
      if selector == 0 {
        if index > cfg.width {
          BufferShow();
          index := 0;
        }
      }
    }

    /**
     * An interrupt handler (ADC complete, INT0, INT1), which is not part of
     * this model: it may run only while interrupts are enabled, and may
     * leave the cursor, the selector, the samples and the range lines in any
     * state.
     */
    method Interrupt(newIndex: Byte, newSelector: Byte, samples: seq<Byte>, port: bv8)
      requires Valid() && interruptsEnabled && |samples| == buffer.Length
      modifies this, buffer
      ensures Valid() && interruptsEnabled
      ensures index == newIndex && selector == newSelector && buffer[..] == samples
      ensures voltPort == port && voltDdr == old(voltDdr)
    {
      index := newIndex;
      selector := newSelector;
      voltPort := port;
      forall k | 0 <= k < buffer.Length {
        buffer[k] := samples[k];
      }
    }

    /** The globals as one value. */
    ghost function Snapshot(): Globals
      reads this, buffer
    {
      Globals(index, selector, buffer[..], voltPort)
    }

    /** One event of a schedule: a main-loop pass or an interrupt. */
    method Dispatch(e: Event)
      requires Valid() && interruptsEnabled && (e.Isr? ==> |e.samples| == cfg.width)
      modifies this, lcd, buffer
      ensures Valid() && interruptsEnabled && voltDdr == old(voltDdr)
      ensures var r := Next(cfg, old(Snapshot()), e);
              Snapshot() == r.0 && lcd.log == old(lcd.log) + r.1
    {
      match e
      case Poll =>
        Iterate();
      case Isr(i, s, samples, port) =>
        Interrupt(i, s, samples, port);
    }

    /** Event `k` of a schedule, taking the run of the first `k` events one event further. */
    method Pass(ghost g0: Globals, ghost log0: seq<Cmd>, schedule: seq<Event>, k: nat)
      requires Valid() && interruptsEnabled && FullBuffers(cfg, schedule) && k < |schedule|
      requires |g0.samples| == cfg.width
      requires Snapshot() == Run(cfg, g0, schedule, k).0 && lcd.log == log0 + Run(cfg, g0, schedule, k).1
      modifies this, lcd, buffer
      ensures Valid() && interruptsEnabled && voltDdr == old(voltDdr)
      ensures Snapshot() == Run(cfg, g0, schedule, k + 1).0 && lcd.log == log0 + Run(cfg, g0, schedule, k + 1).1
    {
      ghost var prev := Run(cfg, g0, schedule, k);
      ghost var next := Next(cfg, prev.0, schedule[k]);
      assert Run(cfg, g0, schedule, k + 1) == (next.0, prev.1 + next.1);
      Dispatch(schedule[k]);
    }

    /**
     * `StartScope` after the register set-up: range lines, `sei()`, then the
     * endless loop, here run over a finite interleaving of loop passes and
     * interrupts.  Interrupts are enabled at every pass, so a producer can
     * always run between two passes.
     */
    method StartScope(schedule: seq<Event>)
      requires Valid() && FullBuffers(cfg, schedule)
      modifies this, lcd, buffer
      ensures Valid() && interruptsEnabled
      ensures voltDdr == RangeOutputs(cfg, old(voltDdr))
      ensures var r := Run(cfg, old(Snapshot()).(port := RangeLevels(cfg, old(voltPort))), schedule, |schedule|);
              Snapshot() == r.0 && lcd.log == old(lcd.log) + r.1
    {
      PortsInit();
      interruptsEnabled := true;
      ghost var ddr := voltDdr;
      ghost var g0 := Snapshot();
      ghost var log0 := lcd.log;
      for k := 0 to |schedule|
        invariant Valid() && interruptsEnabled && voltDdr == ddr
        invariant Snapshot() == Run(cfg, g0, schedule, k).0
        invariant lcd.log == log0 + Run(cfg, g0, schedule, k).1
      {
        Pass(g0, log0, schedule, k);
      }
    }
  }
}
