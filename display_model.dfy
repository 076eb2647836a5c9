/**
 * The `BMODisplay` driver as a state machine over plain values.
 *
 * The hardware is an input: whether allocating the panel object succeeds and
 * what the panel answers to the ID read (0x04) and the status read (0x09)
 * come with each `begin` as a `Probe`. What the driver does to the hardware
 * is output: pin and PWM writes are appended to `pins`, and every call made
 * through the panel handle is appended to `panel`, the command record of
 * that handle. `published` stands for `g_bmoDisplay` pointing at this
 * display.
 *
 * Each function below is one routine of the driver; the `BmoDisplay` class
 * is proved to change its fields exactly as these functions say.
 */
module DisplayModel {
  import opened Wrappers
  import opened Panel
  import opened ControllerId

  /** `DisplayStatus`. */
  datatype Status = Ok | ErrorInit | ErrorSpi | ErrorController | ErrorMemory

  /** The value C gives each status. */
  function StatusCode(s: Status): (code: int)
    ensures 0 <= code < 5
    ensures code == 0 <==> s == Ok
  {
    match s
    case Ok => 0
    case ErrorInit => 1
    case ErrorSpi => 2
    case ErrorController => 3
    case ErrorMemory => 4
  }

  // Pin wiring and fixed settings of display.h.
  const PinCs := 10
  const PinRst := 9
  const PinDc := 8
  const PinLed := 7
  const BacklightPwmHz := 1000
  const DisplayRotation := 0

  /** What the driver does to a pin directly (delays are not recorded). */
  datatype PinEvent =
    | PinOutput(pin: int)
    | PinWrite(pin: int, high: bool)
    | PwmFrequency(pin: int, hz: int)
    | PwmWrite(pin: int, duty: bv8)

  /** What the hardware does during one `begin`. */
  datatype Probe = Probe(allocates: bool, id1: bv8, id2: bv8, id3: bv8, statusByte: bv8)

  /** The driver's fields; `hasPanel` is `tft != nullptr` and `panel` is what was sent through `tft`. */
  datatype State = State(
    hasPanel: bool,
    panel: seq<DrawCmd>,
    status: Status,
    controller: Controller,
    backlightLevel: bv8,
    lastError: Option<string>,
    initialized: bool,
    published: bool,
    pins: seq<PinEvent>)

  /** A routine's boolean result together with the state it leaves. */
  datatype Outcome = Outcome(ok: bool, state: State)

  const AllocationFailed := "Failed to allocate TFT object"
  const TestFailed := "Display test failed"

  /**
   * What the driver keeps true between calls: only a display with a panel
   * handle is initialized, `g_bmoDisplay` is set exactly while it is, and a
   * display without a handle has no command record.
   */
  ghost predicate Inv(s: State) {
    && (s.initialized ==> s.hasPanel)
    && s.published == s.initialized
    && (!s.hasPanel ==> s.panel == [])
  }

  /** The constructor: no handle, `DISPLAY_OK`, `CONTROLLER_UNKNOWN`, backlight 255, no error. */
  function Fresh(): (s: State)
    ensures Inv(s) && !s.initialized && !s.hasPanel
    ensures StatusCode(s.status) == 0 && ControllerCode(s.controller) == 0
    ensures s.backlightLevel == 255 && s.lastError == None
  {
    State(false, [], Ok, Unknown, 255, None, false, false, [])
  }

  function SendAll(s: State, cmds: seq<DrawCmd>): State {
    s.(panel := s.panel + cmds)
  }

  function Pins(s: State, events: seq<PinEvent>): State {
    s.(pins := s.pins + events)
  }

  // ---------------------------------------------------------------------
  // Backlight and errors

  /** `setBacklight(brightness)`: recorded and written to the LED pin, initialized or not. */
  function SetBacklight(s: State, brightness: bv8): State {
    Pins(s.(backlightLevel := brightness), [PwmWrite(PinLed, brightness)])
  }

  /** `setError(errorStatus, message)`. */
  function SetError(s: State, errorStatus: Status, message: string): State {
    s.(status := errorStatus, lastError := Some(message))
  }

  /** `clearError()`. */
  function ClearError(s: State): State {
    s.(lastError := None, status := Ok)
  }

  lemma SetBacklightFacts(s: State, brightness: bv8)
    ensures SetBacklight(s, brightness).backlightLevel == brightness
    ensures SetBacklight(s, brightness).pins == s.pins + [PwmWrite(7, brightness)]
    ensures SetBacklight(s, brightness) == s.(backlightLevel := brightness, pins := s.pins + [PwmWrite(7, brightness)])
    ensures Inv(s) ==> Inv(SetBacklight(s, brightness))
  {
  }

  /** `clearError` resets the status and the message and nothing else. */
  lemma ClearErrorFacts(s: State)
    ensures ClearError(s).status == Ok && ClearError(s).lastError == None
    ensures ClearError(s).(status := s.status, lastError := s.lastError) == s
    ensures Inv(s) ==> Inv(ClearError(s))
  {
  }

  // ---------------------------------------------------------------------
  // Bring-up steps of begin

  /** `initializeBacklight`: LED pin as output, 1 kHz PWM, duty 0. */
  function InitializeBacklight(s: State): State {
    Pins(s, [PinOutput(PinLed), PwmFrequency(PinLed, BacklightPwmHz), PwmWrite(PinLed, 0)])
  }

  /** `initializeSPI`: CS, RST and DC as outputs, all high, then a reset pulse on RST. */
  function InitializeSpi(s: State): State {
    Pins(s, [PinOutput(PinCs), PinOutput(PinRst), PinOutput(PinDc),
             PinWrite(PinCs, true), PinWrite(PinRst, true), PinWrite(PinDc, true),
             PinWrite(PinRst, false), PinWrite(PinRst, true)])
  }

  /**
   * `detectController`: "Read Display ID" with chip select held low, the
   * three answers packed into an id, and the id classified.
   */
  function DetectController(s: State, p: Probe): (r: State)
    ensures r.controller != Unknown
    ensures r.controller == Classify(PackId(p.id1, p.id2, p.id3))
  {
    Pins(SendAll(s, [WriteCommand(0x04), ReadCommand8(0x04, 1), ReadCommand8(0x04, 2), ReadCommand8(0x04, 3)]),
         [PinWrite(PinCs, false), PinWrite(PinCs, true)])
      .(controller := Classify(PackId(p.id1, p.id2, p.id3)))
  }

  /** `initILI9341`: extended command set, power control, inversion off, memory access 0x48. */
  const Ili9341Init: seq<DrawCmd> :=
    [WriteCommand(0xEF), WriteData(0x03), WriteData(0x80), WriteData(0x02),
     WriteCommand(0xCF), WriteData(0x00), WriteData(0xC1), WriteData(0x30),
     WriteCommand(0x20),
     WriteCommand(0x36), WriteData(0x48)]

  /** `initST7789`: memory access 0x00, 16-bit pixel format. */
  const St7789Init: seq<DrawCmd> :=
    [WriteCommand(0x36), WriteData(0x00), WriteCommand(0x3A), WriteData(0x05)]

  /** `configureDisplay`: rotation 0, then the controller's sequence; UNKNOWN takes the ILI9341 one. */
  function ConfigureDisplay(s: State): State {
    SendAll(s, [SetRotation(DisplayRotation)] +
      match s.controller
      case Ili9341 => Ili9341Init
      case St7789 => St7789Init
      case Unknown => Ili9341Init)
  }

  /** `testSPIConnection`: read the status register; it passes unless it reads 0x00 or 0xFF. */
  function TestSpiConnection(s: State, p: Probe): (r: Outcome)
    ensures r.ok <==> p.statusByte != 0x00 && p.statusByte != 0xFF
  {
    Outcome(p.statusByte != 0x00 && p.statusByte != 0xFF,
            Pins(SendAll(s, [WriteCommand(0x09), ReadCommand8(0x09, 1)]), [PinWrite(PinCs, false), PinWrite(PinCs, true)]))
  }

  /** `testDisplayMemory`: one green pixel at (10, 10); the test always passes. */
  function TestDisplayMemory(s: State): (r: Outcome)
    ensures r.ok
  {
    Outcome(true, SendAll(s, [DrawPixel(10, 10, Solid(0x07E0))]))
  }

  /** The colour flash of `testDisplay`: black, white, red, green, blue, black. */
  const ColourFlash: seq<DrawCmd> :=
    [FillScreen(Solid(0x0000)), FillScreen(Solid(0xFFFF)), FillScreen(Solid(0xF800)),
     FillScreen(Solid(0x07E0)), FillScreen(Solid(0x001F)), FillScreen(Solid(0x0000))]

  /** `testDisplay`: the two checks, then the colour flash when both pass. */
  function TestDisplay(s: State, p: Probe): (r: Outcome)
    ensures r.ok <==> p.statusByte != 0x00 && p.statusByte != 0xFF
    ensures s.panel + [WriteCommand(0x09), ReadCommand8(0x09, 1)] <= r.state.panel
    ensures r.ok ==> |r.state.panel| == |s.panel| + 9 && r.state.panel[|s.panel| + 3..] == ColourFlash
    ensures !r.ok ==> |r.state.panel| == |s.panel| + 2
  {
    var spi := TestSpiConnection(s, p);
    if !spi.ok then spi
    else
      var memory := TestDisplayMemory(spi.state);
      if !memory.ok then memory
      else Outcome(true, SendAll(memory.state, ColourFlash))
  }

  /**
   * The middle of `begin`, on a display that has a handle: backlight and
   * SPI set-up, `init`, detection, configuration and the self-test. The SPI,
   * detection and configuration steps always report success, so `begin`'s
   * error branches for them cannot be taken.
   */
  function BringUp(s: State, p: Probe): Outcome {
    var s2 := InitializeSpi(InitializeBacklight(s));
    var s3 := ConfigureDisplay(DetectController(SendAll(s2, [Init]), p));
    TestDisplay(s3, p)
  }

  /**
   * `begin`: allocate the handle if there is none, bring the panel up, and
   * on a passing self-test turn the backlight fully on, publish the display
   * and mark it initialized.
   */
  function Begin(s: State, p: Probe): Outcome {
    if !s.hasPanel && !p.allocates then
      Outcome(false, SetError(s, ErrorMemory, AllocationFailed))
    else
      var test := BringUp(if s.hasPanel then s else s.(hasPanel := true, panel := []), p);
      if !test.ok then Outcome(false, SetError(test.state, ErrorInit, TestFailed))
      else Outcome(true, SetBacklight(test.state, 255).(published := true, initialized := true, status := Ok))
  }

  // ---------------------------------------------------------------------
  // Shutdown, power and reset

  /** `end`: when initialized, backlight off, handle released, global cleared. */
  function End(s: State): State {
    if s.initialized then
      SetBacklight(s, 0).(hasPanel := false, panel := [], initialized := false, published := false)
    else s
  }

  /** `sleep`: backlight off and "Sleep In" (0x10), only when initialized. */
  function Sleep(s: State): State {
    if !s.initialized then s
    else SendAll(SetBacklight(s, 0), [WriteCommand(0x10)])
  }

  /** `wakeup`: "Sleep Out" (0x11), then the recorded backlight level re-applied, only when initialized. */
  function Wakeup(s: State): State {
    if !s.initialized then s
    else SetBacklight(SendAll(s, [WriteCommand(0x11)]), s.backlightLevel)
  }

  /** `reset`: a reset pulse on RST, then `configureDisplay` again when initialized. */
  function Reset(s: State): State {
    var pulsed := Pins(s, [PinWrite(PinRst, false), PinWrite(PinRst, true)]);
    if s.initialized then ConfigureDisplay(pulsed) else pulsed
  }

  // ---------------------------------------------------------------------
  // Pass-through calls, each guarded by `if (tft)`

  function Clear(s: State, color: bv16): State {
    if s.hasPanel then SendAll(s, [FillScreen(Solid(color))]) else s
  }

  function StartWrite(s: State): State {
    if s.hasPanel then SendAll(s, [Panel.StartWrite]) else s
  }

  function EndWrite(s: State): State {
    if s.hasPanel then SendAll(s, [Panel.EndWrite]) else s
  }

  function SetAddrWindow(s: State, x: bv16, y: bv16, w: bv16, h: bv16): State {
    if s.hasPanel then SendAll(s, [Panel.SetAddrWindow(x, y, w, h)]) else s
  }

  // ---------------------------------------------------------------------
  // Properties of begin

  /** `begin` succeeds exactly when a handle exists or can be made and the status byte is plausible. */
  lemma BeginSucceedsIff(s: State, p: Probe)
    ensures Begin(s, p).ok <==> (s.hasPanel || p.allocates) && p.statusByte != 0x00 && p.statusByte != 0xFF
  {
  }

  /**
   * A successful `begin` leaves the display initialized and published, with
   * status OK, full backlight and the detected (never UNKNOWN) controller;
   * the message of an earlier failure is kept.
   */
  lemma BeginSuccess(s: State, p: Probe)
    requires Begin(s, p).ok
    ensures var r := Begin(s, p).state;
      && r.initialized && r.published && r.hasPanel
      && r.status == Ok && r.backlightLevel == 255
      && r.controller == Classify(PackId(p.id1, p.id2, p.id3)) && r.controller != Unknown
      && r.lastError == s.lastError
      && r.pins[|r.pins| - 1] == PwmWrite(7, 255)
  {
  }

  /**
   * A failed `begin` records why, keeps the handle it has (a retry reuses
   * it), and leaves `initialized`, the global and the backlight level as
   * they were.
   */
  lemma BeginFailure(s: State, p: Probe)
    requires !Begin(s, p).ok
    ensures var r := Begin(s, p).state;
      && r.status == (if !s.hasPanel && !p.allocates then ErrorMemory else ErrorInit)
      && r.lastError == Some(if !s.hasPanel && !p.allocates then AllocationFailed else TestFailed)
      && r.hasPanel == (s.hasPanel || p.allocates)
      && r.initialized == s.initialized && r.published == s.published
      && r.backlightLevel == s.backlightLevel
  {
  }

  /** `begin` on a display that has a handle keeps it: its record only grows. */
  lemma BeginKeepsPanel(s: State, p: Probe)
    requires s.hasPanel
    ensures Begin(s, p).state.hasPanel
    ensures s.panel <= Begin(s, p).state.panel
  {
  }

  /** On the first `begin` the new handle receives `init` first. */
  lemma BeginInitsNewPanel(s: State, p: Probe)
    requires !s.hasPanel && p.allocates
    ensures Begin(s, p).state.panel[0] == Init
  {
  }

  // ---------------------------------------------------------------------
  // Properties of end, sleep, wakeup, reset

  lemma EndFacts(s: State)
    ensures s.initialized ==> var r := End(s);
      && !r.initialized && !r.published && !r.hasPanel && r.backlightLevel == 0
      && r.status == s.status && r.controller == s.controller && r.lastError == s.lastError
    ensures !s.initialized ==> End(s) == s
    ensures End(End(s)) == End(s)
    ensures Inv(s) ==> Inv(End(s))
  {
  }

  /** Sleep and wakeup do nothing on a display that is not initialized. */
  lemma PowerNeedsInit(s: State)
    requires !s.initialized
    ensures Sleep(s) == s && Wakeup(s) == s
  {
  }

  /**
   * `sleep` records backlight level 0, so the `wakeup` after it re-applies 0
   * and not the level the display had before sleeping.
   */
  lemma WakeupAfterSleepStaysDark(s: State)
    requires s.initialized
    ensures Wakeup(Sleep(s)).backlightLevel == 0
    ensures Wakeup(Sleep(s)).pins == s.pins + [PwmWrite(7, 0), PwmWrite(7, 0)]
    ensures Wakeup(Sleep(s)).panel == s.panel + [WriteCommand(0x10), WriteCommand(0x11)]
  {
  }

  /** `reset` changes no field; it only pulses RST and, when initialized, re-sends the configuration. */
  lemma ResetChangesOnlyOutput(s: State)
    ensures Reset(s).(pins := s.pins, panel := s.panel) == s
    ensures Reset(s).pins == s.pins + [PinWrite(9, false), PinWrite(9, true)]
    ensures !s.initialized ==> Reset(s).panel == s.panel
    ensures s.initialized ==> Reset(s).panel == ConfigureDisplay(s).panel
  {
  }

  /** A controller that was never detected is configured as an ILI9341. */
  lemma UnknownConfiguresAsIli9341(s: State)
    requires s.controller != St7789
    ensures ConfigureDisplay(s).panel == s.panel + [SetRotation(0)] + Ili9341Init
    ensures |ConfigureDisplay(s).panel| == |s.panel| + 12
  {
  }

  // ---------------------------------------------------------------------
  // Call sequences

  /** One public call on the driver. */
  datatype Call =
    | CallBegin(probe: Probe)
    | CallEnd
    | CallSetBacklight(brightness: bv8)
    | CallSleep
    | CallWakeup
    | CallReset
    | CallClear(color: bv16)
    | CallClearError
    | CallStartWrite
    | CallEndWrite
    | CallSetAddrWindow(x: bv16, y: bv16, w: bv16, h: bv16)

  function Apply(s: State, c: Call): State {
    match c
    case CallBegin(p) => Begin(s, p).state
    case CallEnd => End(s)
    case CallSetBacklight(v) => SetBacklight(s, v)
    case CallSleep => Sleep(s)
    case CallWakeup => Wakeup(s)
    case CallReset => Reset(s)
    case CallClear(color) => Clear(s, color)
    case CallClearError => ClearError(s)
    case CallStartWrite => StartWrite(s)
    case CallEndWrite => EndWrite(s)
    case CallSetAddrWindow(x, y, w, h) => SetAddrWindow(s, x, y, w, h)
  }

  /** The calls made one after another, first call first. */
  function Run(s: State, calls: seq<Call>): State
    decreases |calls|
  {
    if calls == [] then s else Apply(Run(s, calls[..|calls| - 1]), calls[|calls| - 1])
  }

  /** Every call keeps the driver's invariant and never loses a pin event. */
  lemma ApplyKeeps(s: State, c: Call)
    requires Inv(s)
    ensures Inv(Apply(s, c))
    ensures s.pins <= Apply(s, c).pins
  {
    if c.CallBegin? {
      BeginKeeps(s, c.probe);
    }
  }

  /** The bring-up only appends: it keeps the handle, the flags and the recorded events. */
  lemma BringUpKeeps(s: State, p: Probe)
    ensures var r := BringUp(s, p).state;
      && r.hasPanel == s.hasPanel && r.initialized == s.initialized && r.published == s.published
      && s.pins <= r.pins && s.panel <= r.panel
  {
  }

  lemma BeginKeeps(s: State, p: Probe)
    requires Inv(s)
    ensures Inv(Begin(s, p).state)
    ensures s.pins <= Begin(s, p).state.pins
  {
    if s.hasPanel || p.allocates {
      BringUpKeeps(if s.hasPanel then s else s.(hasPanel := true, panel := []), p);
    }
  }

  /** From a consistent state, any sequence of calls leaves a consistent state and only appends pin events. */
  lemma {:induction false} RunKeeps(s: State, calls: seq<Call>)
    requires Inv(s)
    ensures Inv(Run(s, calls))
    ensures s.pins <= Run(s, calls).pins
    decreases |calls|
  {
    if calls != [] {
      RunKeeps(s, calls[..|calls| - 1]);
      ApplyKeeps(Run(s, calls[..|calls| - 1]), calls[|calls| - 1]);
    }
  }

  /** In particular, from power-up the display is initialized exactly while it is published. */
  lemma PublishedWhileInitialized(calls: seq<Call>)
    ensures Run(Fresh(), calls).published == Run(Fresh(), calls).initialized
    ensures Run(Fresh(), calls).initialized ==> Run(Fresh(), calls).hasPanel
  {
    RunKeeps(Fresh(), calls);
  }
}
