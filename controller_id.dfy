/**
 * Controller identification (`BMODisplay::detectController`): the three
 * bytes the panel returns for "Read Display ID" (0x04) are packed into a
 * 24-bit id, and the id selects the controller type. Detection never
 * fails: an id it does not recognise is treated as an ILI9341.
 */
module ControllerId {

  /** `DisplayController`; `CONTROLLER_UNKNOWN` is only the initial value. */
  datatype Controller = Unknown | Ili9341 | St7789

  /** The value C gives each controller. */
  function ControllerCode(c: Controller): (code: int)
    ensures 0 <= code < 3
    ensures code == 0 <==> c == Unknown
  {
    match c
    case Unknown => 0
    case Ili9341 => 1
    case St7789 => 2
  }

  /** `id = b1; id <<= 8; id |= b2; id <<= 8; id |= b3` on a `uint32_t`. */
  function PackId(b1: bv8, b2: bv8, b3: bv8): (id: bv32)
    ensures id < 0x100_0000
    ensures id >> 16 == b1 as bv32
    ensures id & 0xFFFF == ((b2 as bv32) << 8) | (b3 as bv32)
    ensures id & 0xFF == b3 as bv32
  {
    ((((b1 as bv32) << 8) | (b2 as bv32)) << 8) | (b3 as bv32)
  }

  /** The controller an id selects: 0x9341 first, then 0x7789 or a low byte of 0x85. */
  function Classify(id: bv32): (c: Controller)
    ensures c != Unknown
    ensures id & 0xFFFF == 0x9341 ==> c == Ili9341
    ensures c == St7789 <==> id & 0xFFFF != 0x9341 && (id & 0xFFFF == 0x7789 || id & 0xFF == 0x85)
  {
    if id & 0xFFFF == 0x9341 then Ili9341
    else if id & 0xFFFF == 0x7789 || id & 0xFF == 0x85 then St7789
    else Ili9341
  }

  /** 0x9341 and 0x7789 both have a low byte other than 0x85, so the three tests never overlap. */
  lemma ClassifyCases(id: bv32)
    ensures Classify(id) == Ili9341 <==> id & 0xFFFF == 0x9341 || (id & 0xFFFF != 0x7789 && id & 0xFF != 0x85)
    ensures id & 0xFFFF == 0x7789 ==> Classify(id) == St7789
    ensures id & 0xFF == 0x85 ==> Classify(id) == St7789
  {
    if id & 0xFF == 0x85 {
      assert (id & 0xFFFF) & 0xFF == 0x85 by {
        assert (id & 0xFFFF) & 0xFF == id & 0xFF;
      }
    }
  }

  /**
   * Only the low 16 bits of an id take part in the classification; with
   * `PackId` this means the first ID byte never affects the result.
   */
  lemma ClassifyUsesLowHalf(id: bv32, id': bv32)
    requires id & 0xFFFF == id' & 0xFFFF
    ensures Classify(id) == Classify(id')
  {
    LowByteOfLowHalf(id);
    LowByteOfLowHalf(id');
    if id & 0xFFFF == 0x9341 {
      assert Classify(id) == Ili9341 == Classify(id');
    } else if id & 0xFFFF == 0x7789 || id & 0xFF == 0x85 {
      assert Classify(id) == St7789 == Classify(id');
    } else {
      assert Classify(id) == Ili9341 == Classify(id');
    }
  }

  lemma LowByteOfLowHalf(id: bv32)
    ensures id & 0xFF == (id & 0xFFFF) & 0xFF
  {
  }

  /** Typical answers of the two panels and of a bus that reads back nothing. */
  lemma KnownIds()
    ensures Classify(PackId(0x00, 0x93, 0x41)) == Ili9341
    ensures Classify(PackId(0x00, 0x77, 0x89)) == St7789
    ensures Classify(PackId(0x85, 0x85, 0x85)) == St7789
    ensures Classify(PackId(0x00, 0x00, 0x00)) == Ili9341
    ensures Classify(PackId(0xFF, 0xFF, 0xFF)) == Ili9341
  {
  }
}
