/**
 * `BMODisplay`: the display driver object. Each method updates the fields
 * step by step as the driver does, and is proved to leave the state that
 * the matching DisplayModel function gives for the state before the call.
 */
module Display {
  import opened Wrappers
  import opened Panel
  import opened ControllerId
  import opened DisplayModel

  class BmoDisplay {
    var tft: Tft?
    var status: Status
    var controller: Controller
    var backlightLevel: bv8
    var lastError: Option<string>
    var initialized: bool
    /** Pin and PWM writes made by the driver itself. */
    var pins: seq<PinEvent>
    /** Whether `g_bmoDisplay` points at this display. */
    ghost var published: bool

    /** The fields as a DisplayModel state; the command record is that of the current handle. */
    ghost function Model(): State
      reads this, tft
    {
      State(tft != null, if tft != null then tft.cmds else [], status, controller, backlightLevel,
            lastError, initialized, published, pins)
    }

    ghost predicate Valid()
      reads this, tft
    {
      Inv(Model())
    }

    constructor ()
      ensures Model() == Fresh() && Valid()
    {
      tft := null;
      status := Ok;
      controller := Unknown;
      backlightLevel := 255;
      lastError := None;
      initialized := false;
      pins := [];
      published := false;
    }

    // -------------------------------------------------------------------
    // Getters

    function GetStatus(): (r: Status)
      reads this, tft
      ensures r == Model().status
    {
      status
    }

    function GetController(): (r: Controller)
      reads this, tft
      ensures r == Model().controller
    {
      controller
    }

    function GetBacklight(): (r: bv8)
      reads this, tft
      ensures r == Model().backlightLevel
    {
      backlightLevel
    }

    function GetLastError(): (r: Option<string>)
      reads this, tft
      ensures r == Model().lastError
    {
      lastError
    }

    // -------------------------------------------------------------------
    // Lifecycle

    /**
     * `begin`; the three bring-up steps that always report success are
     * called without a check of their result.
     */
    method Begin(probe: Probe) returns (ok: bool)
      requires Valid()
      modifies this, tft
      ensures Outcome(ok, Model()) == DisplayModel.Begin(old(Model()), probe)
      ensures Valid()
      ensures old(tft) != null ==> tft == old(tft)
      ensures old(tft) == null && tft != null ==> fresh(tft)
    {
      ghost var s := Model();
      if tft == null {
        if !probe.allocates {
          SetError(ErrorMemory, AllocationFailed);
          return false;
        }
        tft := new Tft();
      }
      ghost var s1 := Model();
      assert s1 == if s.hasPanel then s else s.(hasPanel := true, panel := []);
      var passed := BringUp(probe);
      ghost var test := DisplayModel.BringUp(s1, probe);
      assert test == Outcome(passed, Model());
      if !passed {
        SetError(ErrorInit, TestFailed);
        return false;
      }
      SetBacklight(255);
      published := true;
      initialized := true;
      status := Ok;
      ok := true;
    }

    /** The steps of `begin` between allocation and the final backlight. */
    method BringUp(probe: Probe) returns (passed: bool)
      requires tft != null
      modifies this, tft
      ensures Outcome(passed, Model()) == DisplayModel.BringUp(old(Model()), probe)
      ensures tft == old(tft)
    {
      InitializeBacklight();
      var spiReady := InitializeSpi();
      ghost var s2 := Model();
      tft.Send(Init);
      assert Model() == SendAll(s2, [Init]);
      var detected := DetectController(probe);
      var configured := ConfigureDisplay();
      passed := TestDisplay(probe);
    }

    /** `end`: only an initialized display is shut down. */
    method End()
      requires Valid()
      modifies this, tft
      ensures Model() == DisplayModel.End(old(Model()))
      ensures Valid()
      ensures !old(initialized) ==> tft == old(tft)
    {
      if initialized {
        BacklightOff();
        if tft != null {
          tft := null;
        }
        initialized := false;
        published := false;
      }
    }

    // -------------------------------------------------------------------
    // Backlight

    method SetBacklight(brightness: bv8)
      modifies this
      ensures Model() == DisplayModel.SetBacklight(old(Model()), brightness)
      ensures GetBacklight() == brightness
      ensures tft == old(tft)
    {
      backlightLevel := brightness;
      pins := pins + [PwmWrite(PinLed, brightness)];
    }

    method BacklightOn()
      modifies this
      ensures Model() == DisplayModel.SetBacklight(old(Model()), 255)
      ensures tft == old(tft)
    {
      SetBacklight(255);
    }

    method BacklightOff()
      modifies this
      ensures Model() == DisplayModel.SetBacklight(old(Model()), 0)
      ensures tft == old(tft)
    {
      SetBacklight(0);
    }

    // -------------------------------------------------------------------
    // Power and reset

    method Sleep()
      requires Valid()
      modifies this, tft
      ensures Model() == DisplayModel.Sleep(old(Model()))
      ensures tft == old(tft)
    {
      if !initialized {
        return;
      }
      BacklightOff();
      tft.Send(WriteCommand(0x10));
    }

    method Wakeup()
      requires Valid()
      modifies this, tft
      ensures Model() == DisplayModel.Wakeup(old(Model()))
      ensures tft == old(tft)
    {
      if !initialized {
        return;
      }
      tft.Send(WriteCommand(0x11));
      SetBacklight(backlightLevel);
    }

    method Reset()
      requires Valid()
      modifies this, tft
      ensures Model() == DisplayModel.Reset(old(Model()))
      ensures tft == old(tft)
    {
      pins := pins + [PinWrite(PinRst, false), PinWrite(PinRst, true)];
      if initialized {
        var configured := ConfigureDisplay();
      }
    }

    // -------------------------------------------------------------------
    // Pass-through calls

    method Clear(color: bv16)
      modifies tft
      ensures Model() == DisplayModel.Clear(old(Model()), color)
    {
      if tft != null {
        tft.Send(FillScreen(Solid(color)));
      }
    }

    method StartWrite()
      modifies tft
      ensures Model() == DisplayModel.StartWrite(old(Model()))
    {
      if tft != null {
        tft.Send(Panel.StartWrite);
      }
    }

    method EndWrite()
      modifies tft
      ensures Model() == DisplayModel.EndWrite(old(Model()))
    {
      if tft != null {
        tft.Send(Panel.EndWrite);
      }
    }

    method SetAddrWindow(x: bv16, y: bv16, w: bv16, h: bv16)
      modifies tft
      ensures Model() == DisplayModel.SetAddrWindow(old(Model()), x, y, w, h)
    {
      if tft != null {
        tft.Send(Panel.SetAddrWindow(x, y, w, h));
      }
    }

    // -------------------------------------------------------------------
    // Errors

    method ClearError()
      modifies this
      ensures Model() == DisplayModel.ClearError(old(Model()))
      ensures tft == old(tft)
    {
      lastError := None;
      status := Ok;
    }

    method SetError(errorStatus: Status, message: string)
      modifies this
      ensures Model() == DisplayModel.SetError(old(Model()), errorStatus, message)
      ensures tft == old(tft)
    {
      status := errorStatus;
      lastError := Some(message);
    }

    // -------------------------------------------------------------------
    // Bring-up steps

    method InitializeBacklight()
      modifies this
      ensures Model() == DisplayModel.InitializeBacklight(old(Model()))
      ensures tft == old(tft)
    {
      pins := pins + [PinOutput(PinLed)];
      pins := pins + [PwmFrequency(PinLed, BacklightPwmHz)];
      pins := pins + [PwmWrite(PinLed, 0)];
    }

    method InitializeSpi() returns (ok: bool)
      modifies this
      ensures ok
      ensures Model() == DisplayModel.InitializeSpi(old(Model()))
      ensures tft == old(tft)
    {
      pins := pins + [PinOutput(PinCs), PinOutput(PinRst), PinOutput(PinDc)];
      pins := pins + [PinWrite(PinCs, true), PinWrite(PinRst, true), PinWrite(PinDc, true)];
      pins := pins + [PinWrite(PinRst, false), PinWrite(PinRst, true)];
      ok := true;
    }

    /** Packs the ID bytes by shift and or on a 32-bit local, as the driver does. */
    method DetectController(probe: Probe) returns (ok: bool)
      requires tft != null
      modifies this, tft
      ensures ok
      ensures Model() == DisplayModel.DetectController(old(Model()), probe)
      ensures tft == old(tft)
    {
      pins := pins + [PinWrite(PinCs, false)];
      var id := ReadDisplayId(probe);
      pins := pins + [PinWrite(PinCs, true)];
      controller := Classify(id);
      ok := true;
    }

    /** The "Read Display ID" exchange: the command, three reads, and the answers packed into `id`. */
    method ReadDisplayId(probe: Probe) returns (id: bv32)
      requires tft != null
      modifies tft
      ensures id == PackId(probe.id1, probe.id2, probe.id3)
      ensures tft.cmds == old(tft.cmds) + [WriteCommand(0x04), ReadCommand8(0x04, 1), ReadCommand8(0x04, 2), ReadCommand8(0x04, 3)]
    {
      tft.Send(WriteCommand(0x04));
      tft.Send(ReadCommand8(0x04, 1));
      id := probe.id1 as bv32;
      id := id << 8;
      tft.Send(ReadCommand8(0x04, 2));
      id := id | probe.id2 as bv32;
      id := id << 8;
      tft.Send(ReadCommand8(0x04, 3));
      id := id | probe.id3 as bv32;
    }

    method ConfigureDisplay() returns (ok: bool)
      requires tft != null
      modifies tft
      ensures ok
      ensures Model() == DisplayModel.ConfigureDisplay(old(Model()))
    {
      tft.Send(SetRotation(DisplayRotation));
      match controller
      case Ili9341 => ok := InitIli9341();
      case St7789 => ok := InitSt7789();
      case Unknown => ok := InitIli9341();
    }

    method InitIli9341() returns (ok: bool)
      requires tft != null
      modifies tft
      ensures ok
      ensures tft.cmds == old(tft.cmds) + Ili9341Init
    {
      tft.Send(WriteCommand(0xEF));
      tft.Send(WriteData(0x03));
      tft.Send(WriteData(0x80));
      tft.Send(WriteData(0x02));
      tft.Send(WriteCommand(0xCF));
      tft.Send(WriteData(0x00));
      tft.Send(WriteData(0xC1));
      tft.Send(WriteData(0x30));
      tft.Send(WriteCommand(0x20));
      tft.Send(WriteCommand(0x36));
      tft.Send(WriteData(0x48));
      ok := true;
    }

    method InitSt7789() returns (ok: bool)
      requires tft != null
      modifies tft
      ensures ok
      ensures tft.cmds == old(tft.cmds) + St7789Init
    {
      tft.Send(WriteCommand(0x36));
      tft.Send(WriteData(0x00));
      tft.Send(WriteCommand(0x3A));
      tft.Send(WriteData(0x05));
      ok := true;
    }

    // -------------------------------------------------------------------
    // Self-test

    method TestDisplay(probe: Probe) returns (passed: bool)
      requires tft != null
      modifies this, tft
      ensures Outcome(passed, Model()) == DisplayModel.TestDisplay(old(Model()), probe)
      ensures tft == old(tft)
    {
      var spiOk := TestSpiConnection(probe);
      if !spiOk {
        return false;
      }
      var memoryOk := TestDisplayMemory();
      tft.Send(FillScreen(Solid(0x0000)));
      tft.Send(FillScreen(Solid(0xFFFF)));
      tft.Send(FillScreen(Solid(0xF800)));
      tft.Send(FillScreen(Solid(0x07E0)));
      tft.Send(FillScreen(Solid(0x001F)));
      tft.Send(FillScreen(Solid(0x0000)));
      passed := true;
    }

    method TestSpiConnection(probe: Probe) returns (passed: bool)
      requires tft != null
      modifies this, tft
      ensures Outcome(passed, Model()) == DisplayModel.TestSpiConnection(old(Model()), probe)
      ensures tft == old(tft)
    {
      pins := pins + [PinWrite(PinCs, false)];
      tft.Send(WriteCommand(0x09));
      tft.Send(ReadCommand8(0x09, 1));
      var statusByte := probe.statusByte;
      pins := pins + [PinWrite(PinCs, true)];
      passed := statusByte != 0x00 && statusByte != 0xFF;
    }

    method TestDisplayMemory() returns (passed: bool)
      requires tft != null
      modifies tft
      ensures Outcome(passed, Model()) == DisplayModel.TestDisplayMemory(old(Model()))
    {
      var testColor: bv16 := 0x07E0;
      tft.Send(DrawPixel(10, 10, Solid(testColor)));
      passed := true;
    }
  }
}
