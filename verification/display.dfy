/**
 * The ST7735 display as the scope sees it: an append-only log of the
 * commands the firmware sends to the driver.  The driver itself (window
 * addressing, byte transfer, fonts) is not part of this model.
 */
module Display {

  /** Text magnification of `DrawString`. */
  datatype Scale = X1 | X2 | X3

  /** One call into the display driver, with its arguments. */
  datatype Cmd =
    | ClearScreen(colour: int)
    | SetPosition(x: int, y: int)
    | DrawString(text: string, colour: int, scale: Scale)
    | DrawLine(x0: int, x1: int, y0: int, y1: int, colour: int)
    | DrawLineHorizontal(x0: int, x1: int, y: int, colour: int)
    | DrawLineVertical(x: int, y0: int, y1: int, colour: int)
    | SetWindow(x0: int, x1: int, y0: int, y1: int)
    | SendColor565(colour: int, count: int)
    | UpdateScreen
      /** A routine outside this model, called at this point of the frame. */
    | Unmodelled(routine: string)

  /** The display driver: everything sent to it so far, in order. */
  class Lcd {
    var log: seq<Cmd>

    constructor ()
      ensures log == []
    {
      log := [];
    }

    method Emit(cmd: Cmd)
      modifies this
      ensures log == old(log) + [cmd]
    {
      log := log + [cmd];
    }
  }

  /** Pixels in an inclusive window `[x0, x1] x [y0, y1]`. */
  function WindowPixels(w: Cmd): int
    requires w.SetWindow?
  {
    (w.x1 - w.x0 + 1) * (w.y1 - w.y0 + 1)
  }

  /**
   * Every colour fill in `cmds` directly follows a `SetWindow` and sends
   * exactly as many pixels as that window holds.
   */
  ghost predicate FillsMatchWindows(cmds: seq<Cmd>)
  {
    forall p :: 0 <= p < |cmds| && cmds[p].SendColor565? ==>
      0 < p && cmds[p - 1].SetWindow? && cmds[p].count == WindowPixels(cmds[p - 1])
  }

  lemma FillsMatchWindowsAppend(a: seq<Cmd>, b: seq<Cmd>)
    requires FillsMatchWindows(a) && FillsMatchWindows(b)
    requires b != [] ==> !b[0].SendColor565?
    ensures FillsMatchWindows(a + b)
  {
    forall p | 0 <= p < |a + b| && (a + b)[p].SendColor565?
      ensures 0 < p && (a + b)[p - 1].SetWindow? && (a + b)[p].count == WindowPixels((a + b)[p - 1])
    {
      if p >= |a| {
        assert (a + b)[p] == b[p - |a|];
        assert (a + b)[p - 1] == b[p - 1 - |a|];
      }
    }
  }

  /** Number of colour fills in `cmds` that use `colour`. */
  function CountFills(cmds: seq<Cmd>, colour: int): nat
  {
    if cmds == [] then 0
    else (if cmds[0].SendColor565? && cmds[0].colour == colour then 1 else 0)
         + CountFills(cmds[1..], colour)
  }

  lemma {:induction false} CountFillsAppend(a: seq<Cmd>, b: seq<Cmd>, colour: int)
    ensures CountFills(a + b, colour) == CountFills(a, colour) + CountFills(b, colour)
  {
    if a != [] {
      assert (a + b)[1..] == a[1..] + b;
      CountFillsAppend(a[1..], b, colour);
    } else {
      assert a + b == b;
    }
  }

  /** A four-command block holds a fill of `colour` exactly when its second command is one. */
  lemma CountFillsQuad(cmds: seq<Cmd>, colour: int)
    requires |cmds| == 4 && !cmds[0].SendColor565? && !cmds[2].SendColor565? && !cmds[3].SendColor565?
    ensures CountFills(cmds, colour) == if cmds[1].SendColor565? && cmds[1].colour == colour then 1 else 0
  {
    var c1, c2, c3 := cmds[1..], cmds[2..], cmds[3..];
    assert c1[1..] == c2 && c2[1..] == c3 && c3[1..] == [];
    assert CountFills(c3, colour) == 0;
    assert CountFills(c2, colour) == 0;
  }
}
