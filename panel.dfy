/**
 * The panel driver object (`TFT_eSPI`) as the display driver and the
 * renderer see it: a foreign service whose primitives are not interpreted
 * here. Each call made through a handle is recorded, in order, as a
 * `DrawCmd`; what a register read returns is supplied by the caller's
 * environment, not by the handle.
 */
module Panel {

  /**
   * The colour argument of a drawing call. Most colours are palette
   * constants; two are computed in floating point by the renderer and are
   * kept as opaque tags: the background gradient of row `y`
   * (`blendColors(BMO_TEAL, BMO_LIGHT_TEAL, y / 320 * 0.1)`) and the
   * outline of a smooth circle (`darkenColor(base, 0.2)`).
   */
  datatype Paint =
    | Solid(color: bv16)
    | Gradient(y: int)
    | Darkened(base: bv16)

  datatype DrawCmd =
    | FillScreen(paint: Paint)
    | DrawFastHLine(x: int, y: int, w: int, paint: Paint)
    | DrawLine(x1: int, y1: int, x2: int, y2: int, paint: Paint)
    | FillCircle(cx: int, cy: int, r: int, paint: Paint)
    | DrawCircle(cx: int, cy: int, r: int, paint: Paint)
    | FillEllipse(cx: int, cy: int, rx: int, ry: int, paint: Paint)
    | FillRect(x: int, y: int, w: int, h: int, paint: Paint)
    | DrawRoundRect(x: int, y: int, w: int, h: int, radius: int, paint: Paint)
    | StartWrite
    | EndWrite
    | Init
    | SetRotation(rotation: int)
    | WriteCommand(command: bv8)
    | WriteData(data: bv8)
    | ReadCommand8(register: bv8, index: int)
    | DrawPixel(px: int, py: int, paint: Paint)
    | SetAddrWindow(wx: bv16, wy: bv16, ww: bv16, wh: bv16)
  {
    /** The two calls that open and close a batched-write scope. */
    predicate IsBracket() {
      StartWrite? || EndWrite?
    }
  }

  /** A panel handle; `cmds` is everything drawn through it so far. */
  class Tft {
    var cmds: seq<DrawCmd>

    constructor ()
      ensures cmds == []
    {
      cmds := [];
    }

    /** One call into the driver. */
    method Send(c: DrawCmd)
      modifies this
      ensures cmds == old(cmds) + [c]
    {
      cmds := cmds + [c];
    }
  }
}
