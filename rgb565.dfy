/**
 * The RGB565 colour macros and the BMO palette of graphics.h.
 *
 * A colour is a 16-bit word: red in bits 15-11, green in bits 10-5 and
 * blue in bits 4-0. The macros are evaluated by C in `int`, so every body
 * below computes in `bv32` and narrows the result only at the end.
 */
module Rgb565 {

  const Teal: bv16 := 0x4E6D
  const DarkTeal: bv16 := 0x2945
  const LightTeal: bv16 := 0x6EDD
  const Black: bv16 := 0x0000
  const White: bv16 := 0xFFFF
  const Gray: bv16 := 0x7BEF
  const BlueTint: bv16 := 0x4E7D

  /**
   * `RGB565(r, g, b)` as C evaluates it, in `int`: the top five bits of red,
   * the top six of green and the top five of blue, each in its own field.
   */
  function PackWord(r: bv8, g: bv8, b: bv8): (w: bv32)
    ensures w < 0x1_0000
    ensures w & 0xF800 == ((r >> 3) as bv32) << 11
    ensures w & 0x07E0 == ((g >> 2) as bv32) << 5
    ensures w & 0x001F == (b >> 3) as bv32
  {
    ((r as bv32 & 0xF8) << 8) | ((g as bv32 & 0xFC) << 3) | (b as bv32 >> 3)
  }

  /** `RGB565(r, g, b)` stored in a `uint16_t`: the narrowing loses nothing. */
  function Pack(r: bv8, g: bv8, b: bv8): (c: bv16)
    ensures c as bv32 == PackWord(r, g, b)
  {
    PackWord(r, g, b) as bv16
  }

  /** `RED_FROM_565(color)`: the five red bits, scaled back to an 8-bit channel. */
  function RedOf(c: bv16): (r: bv8)
    ensures r == ((c >> 11) as bv8) << 3
    ensures r & 0x07 == 0 && r <= 0xF8
  {
    (((c as bv32) >> 8) & 0xF8) as bv8
  }

  /** `GREEN_FROM_565(color)`: the six green bits, scaled back to an 8-bit channel. */
  function GreenOf(c: bv16): (g: bv8)
    ensures g == (((c >> 5) & 0x3F) as bv8) << 2
    ensures g & 0x03 == 0 && g <= 0xFC
  {
    (((c as bv32) >> 3) & 0xFC) as bv8
  }

  /**
   * `BLUE_FROM_565(color)`: the five blue bits, scaled back to an 8-bit
   * channel. The shift to the left happens after promotion to `int`, so
   * no bit is lost before the mask.
   */
  function BlueOf(c: bv16): (b: bv8)
    ensures b == ((c & 0x1F) as bv8) << 3
    ensures b & 0x07 == 0 && b <= 0xF8
  {
    (((c as bv32) << 3) & 0xF8) as bv8
  }

  /** Unpacking a colour and packing its channels again gives the colour back. */
  lemma UnpackPack(c: bv16)
    ensures Pack(RedOf(c), GreenOf(c), BlueOf(c)) == c
  {
  }

  /** Packing keeps exactly the high bits of each channel. */
  lemma PackUnpack(r: bv8, g: bv8, b: bv8)
    ensures RedOf(Pack(r, g, b)) == r & 0xF8
    ensures GreenOf(Pack(r, g, b)) == g & 0xFC
    ensures BlueOf(Pack(r, g, b)) == b & 0xF8
  {
  }

  /** A channel value that survived one round is not changed by another. */
  lemma PackIsStable(r: bv8, g: bv8, b: bv8)
    ensures var c := Pack(r, g, b); Pack(RedOf(c), GreenOf(c), BlueOf(c)) == c
  {
    UnpackPack(Pack(r, g, b));
  }

  /** Black unpacks to (0, 0, 0) and white to the largest representable channels. */
  lemma BlackAndWhite()
    ensures RedOf(Black) == 0 && GreenOf(Black) == 0 && BlueOf(Black) == 0
    ensures RedOf(White) == 0xF8 && GreenOf(White) == 0xFC && BlueOf(White) == 0xF8
    ensures Pack(0, 0, 0) == Black && Pack(0xFF, 0xFF, 0xFF) == White
  {
  }
}
