# BMO display driver and face renderer, modelled in Dafny

This project models the core of the BMO embedded firmware. The firmware drives a
240×320 SPI TFT panel and draws the face of BMO, the game-console character,
on it. Four pieces are modelled:

- **The display driver `BMODisplay`** (src/display.cpp, src/display.h).
  - `DisplayModel` is a state machine over plain values: one function per
    routine (`begin`, `end`, `setBacklight`, `sleep`, `wakeup`, `reset`, the
    pass-through calls, the bring-up steps and the self-test).
  - `Display.BmoDisplay` is a class with the driver's fields. Every method
    changes them step by step as the driver does. Each is proved to leave
    exactly the state the matching `DisplayModel` function gives for the
    state before the call.
  - The hardware is an input, the `Probe`: whether allocating the panel
    object succeeds, the three bytes the panel answers to "Read Display ID"
    (0x04), and the status byte of "Read Display Status" (0x09).
  - Pin and PWM writes are appended to `pins`. Every call made through the
    panel handle is appended to that handle's command record.
- **Controller identification** (`ControllerId`). The three ID bytes are
  packed into a 24-bit id, which is classified as ILI9341 or ST7789. Any
  unrecognised id falls back to ILI9341.
- **The RGB565 colour macros** (`Rgb565`). They are computed in `bv32` as C
  promotes them to `int`, and narrowed to the 16-bit colour at the end.
- **The renderer `BMOGraphics`** (src/graphics.cpp, src/graphics.h).
  - `Renderer.BmoGraphics` is a class holding the binding state:
    `initialized`, `tft`, `fastDrawMode`, `currentExpression` and
    `currentEyeState`.
  - Its drawing routines append to a `Panel.Tft` handle. Each is proved to
    append exactly the command sequence that a `FaceCommands` function gives
    for its arguments.
  - The lemmas of `FaceCommands` state the geometry of those sequences and
    the `startWrite`/`endWrite` bracketing of a face.

The panel library (TFT_eSPI) is foreign code. Its calls are uninterpreted
`DrawCmd` values. Two colours are computed in floating point by the renderer
and are kept as opaque tags:

- the gradient colour of background row `y`, as `Gradient(y)`;
- the outline of a smooth circle, as `Darkened(base)`.

The parabola height of `drawCurve`, also computed in floating point, is a
function value `rise` supplied when the renderer is constructed.

Three behaviours of the code may look unintended; the model follows the code:

- A failed `begin` keeps the allocated panel handle. It is not released, and
  the next `begin` reuses it (`DisplayModel.BeginFailure`,
  `Display.BmoDisplay.Begin`).
- `sleep` records backlight level 0, so the following `wakeup` re-applies 0.
  It does not restore the level from before `sleep`
  (`DisplayModel.WakeupAfterSleepStaysDark`).
- The controller is detected again on every `begin` that gets past
  allocation, not once.

## Model

| member | source | states |
|---|---|---|
| Rgb565.PackWord | src/graphics.h:139 | `RGB565(r, g, b)` evaluated in `int` is below 0x10000, and red, green and blue fill bits 15-11, 10-5 and 4-0 with the top 5, 6 and 5 bits of each channel |
| Rgb565.Pack | src/graphics.h:139 | storing `RGB565(r, g, b)` in 16 bits loses nothing |
| Rgb565.RedOf | src/graphics.h:140 | `RED_FROM_565` is the 5-bit red field shifted up by 3: a multiple of 8, at most 0xF8 |
| Rgb565.GreenOf | src/graphics.h:141 | `GREEN_FROM_565` is the 6-bit green field shifted up by 2: a multiple of 4, at most 0xFC |
| Rgb565.BlueOf | src/graphics.h:142 | `BLUE_FROM_565`, shifted after promotion to `int`, is the 5-bit blue field shifted up by 3: a multiple of 8, at most 0xF8 |
| Rgb565.UnpackPack | src/graphics.h:139-142 | packing the three extracted channels of any 16-bit colour gives the colour back |
| Rgb565.PackUnpack | src/graphics.h:139-142 | extracting from `RGB565(r, g, b)` gives `r & 0xF8`, `g & 0xFC`, `b & 0xF8` |
| Rgb565.PackIsStable | src/graphics.h:139-142 | a packed colour survives a second unpack and pack unchanged |
| Rgb565.BlackAndWhite | src/graphics.h:24-25 | `BMO_BLACK` unpacks to (0, 0, 0) and `BMO_WHITE` to (0xF8, 0xFC, 0xF8); they are the packs of all-zero and all-0xFF channels |
| FaceLayout.ExpressionOf | src/graphics.h:44-51 | exactly the codes 0 .. `EXPRESSION_COUNT` - 1 name an expression, and the expression named has that code |
| FaceLayout.EyeStateOf | src/graphics.h:54-59 | exactly the codes 0 .. 3 name an eye state, and the state named has that code |
| FaceLayout.CodesRoundTrip | src/graphics.h:44-59 | every declared expression and eye state maps to a code in range that maps back to it; `EXPRESSION_COUNT` is 5 |
| FaceLayout.CodesInjective | src/graphics.h:44-59 | distinct declared values have distinct codes |
| ControllerId.ControllerCode | src/display.h:41-45 | the controller codes are 0 .. 2, and 0 is exactly `CONTROLLER_UNKNOWN` |
| ControllerId.PackId | src/display.cpp:197-207 | the packed id is below 2^24, its top byte is the first ID byte, and its low 16 bits are made of the second and third bytes only |
| ControllerId.Classify | src/display.cpp:213-227 | never UNKNOWN; low half 0x9341 gives ILI9341; ST7789 exactly when the low half is not 0x9341 but is 0x7789 or the low byte is 0x85 |
| ControllerId.ClassifyCases | src/display.cpp:213-227 | ILI9341 exactly for 0x9341 or an unrecognised id; low half 0x7789 or low byte 0x85 always gives ST7789 |
| ControllerId.ClassifyUsesLowHalf | src/display.cpp:213-227 | two ids with the same low 16 bits are classified alike, so the first ID byte never matters |
| ControllerId.KnownIds | src/display.cpp:213-227 | 0x009341 gives ILI9341; 0x007789 and 0x858585 give ST7789; all-zero and all-0xFF reads fall back to ILI9341 |
| DisplayModel.StatusCode | src/display.h:48-54 | the status codes are 0 .. 4, and 0 is exactly `DISPLAY_OK` |
| DisplayModel.Fresh | src/display.cpp:13-21 | a new display has no handle, `DISPLAY_OK`, `CONTROLLER_UNKNOWN` (code 0), backlight 255, no error, and is not initialized |
| DisplayModel.DetectController | src/display.cpp:195-228 | detection sets the controller the packed id classifies to, which is never UNKNOWN |
| DisplayModel.TestSpiConnection | src/display.cpp:334-345 | the SPI test passes iff the status byte is neither 0x00 nor 0xFF |
| DisplayModel.TestDisplayMemory | src/display.cpp:347-357 | the memory test always passes |
| DisplayModel.TestDisplay | src/display.cpp:304-332 | the self-test passes iff the status byte passes; it always sends the status read; on success the six colour fills follow the test pixel, and on failure nothing more is sent |
| DisplayModel.SetBacklightFacts | src/display.cpp:100-107 | `setBacklight(v)` records `v` and writes it to the LED pin whether or not the display is initialized, changes nothing else, and keeps the invariant |
| DisplayModel.ClearErrorFacts | src/display.h:86 | `clearError` sets OK and no message, changes nothing else, and keeps the invariant |
| DisplayModel.BeginSucceedsIff | src/display.cpp:27-82 | `begin` returns true exactly when a handle exists or can be allocated and the status byte is neither 0x00 nor 0xFF |
| DisplayModel.BeginSuccess | src/display.cpp:64-81 | a successful `begin` leaves the display initialized, published as the global, OK, at backlight 255 (last PWM write 255), with a detected controller other than UNKNOWN |
| DisplayModel.BeginFailure | src/display.cpp:31-67 | a failed `begin` sets `DISPLAY_ERROR_MEMORY` with the allocation message or `DISPLAY_ERROR_INIT` with the test message; it keeps the handle, `initialized`, the global and the backlight level |
| DisplayModel.BeginKeepsPanel | src/display.cpp:31-37 | `begin` with a handle keeps it; the handle's command record only grows |
| DisplayModel.BeginInitsNewPanel | src/display.cpp:31-49 | on a newly allocated handle the first call is `init` |
| DisplayModel.BeginKeeps | src/display.cpp:27-82 | `begin` keeps the invariant and only appends pin events |
| DisplayModel.EndFacts | src/display.cpp:84-98 | when initialized, `end` turns the backlight to 0, drops the handle, clears `initialized` and the global, and keeps status, controller and error; otherwise it does nothing; a second `end` has no effect |
| DisplayModel.PowerNeedsInit | src/display.cpp:109-133 | `sleep` and `wakeup` do nothing when not initialized |
| DisplayModel.WakeupAfterSleepStaysDark | src/display.cpp:109-133 | after `sleep` then `wakeup` the backlight level is 0: the driver writes 0 twice and sends Sleep In (0x10) then Sleep Out (0x11) |
| DisplayModel.ResetChangesOnlyOutput | src/display.cpp:135-148 | `reset` changes no field; it pulses RST and re-sends the configuration only when initialized |
| DisplayModel.UnknownConfiguresAsIli9341 | src/display.cpp:230-249 | any controller other than ST7789, UNKNOWN included, gets rotation 0 and the 11 ILI9341 commands |
| DisplayModel.ApplyKeeps | src/display.cpp:27-172 | every public call keeps the invariant (initialized only with a handle, global set exactly while initialized, no record without a handle) and never drops a pin event |
| DisplayModel.RunKeeps | src/display.cpp:27-172 | any sequence of public calls from a consistent state keeps the invariant and only appends pin events |
| DisplayModel.PublishedWhileInitialized | src/display.cpp:72-95 | from power-up, after any sequence of calls, `g_bmoDisplay` points at the display exactly while it is initialized, and an initialized display has a handle |
| Display.BmoDisplay.constructor | src/display.cpp:13-21 | the new object's state is `Fresh()` |
| Display.BmoDisplay.GetStatus | src/display.h:64 | returns the status field; touches no state |
| Display.BmoDisplay.GetController | src/display.h:65 | returns the controller field; touches no state |
| Display.BmoDisplay.GetBacklight | src/display.h:69 | returns the backlight field; touches no state |
| Display.BmoDisplay.GetLastError | src/display.h:85 | returns the last error; touches no state |
| Display.BmoDisplay.Begin | src/display.cpp:27-82 | the result and new state are those of `DisplayModel.Begin`; the invariant holds; an existing handle is kept; a new one is freshly allocated |
| Display.BmoDisplay.BringUp | src/display.cpp:39-67 | backlight, SPI, `init`, detection, configuration and self-test leave the state `DisplayModel.BringUp` gives, on the same handle |
| Display.BmoDisplay.End | src/display.cpp:84-98 | the new state is `DisplayModel.End` of the old; the invariant holds |
| Display.BmoDisplay.SetBacklight | src/display.cpp:100-107 | the new state is `DisplayModel.SetBacklight`; `getBacklight()` then returns the argument |
| Display.BmoDisplay.BacklightOn | src/display.h:70 | exactly `setBacklight(255)` |
| Display.BmoDisplay.BacklightOff | src/display.h:71 | exactly `setBacklight(0)` |
| Display.BmoDisplay.Sleep | src/display.cpp:109-120 | the new state is `DisplayModel.Sleep` of the old |
| Display.BmoDisplay.Wakeup | src/display.cpp:122-133 | the new state is `DisplayModel.Wakeup` of the old |
| Display.BmoDisplay.Reset | src/display.cpp:135-148 | the new state is `DisplayModel.Reset` of the old |
| Display.BmoDisplay.Clear | src/display.cpp:150-154 | a fill is sent only when there is a handle |
| Display.BmoDisplay.StartWrite | src/display.cpp:156-160 | `startWrite` is sent only when there is a handle |
| Display.BmoDisplay.EndWrite | src/display.cpp:162-166 | `endWrite` is sent only when there is a handle |
| Display.BmoDisplay.SetAddrWindow | src/display.cpp:168-172 | the window call is sent only when there is a handle |
| Display.BmoDisplay.ClearError | src/display.h:86 | the new state is `DisplayModel.ClearError` of the old |
| Display.BmoDisplay.SetError | src/display.cpp:359-363 | the status and message become the arguments and nothing else changes |
| Display.BmoDisplay.InitializeBacklight | src/display.cpp:292-302 | the LED pin is made an output, set to 1 kHz PWM and written 0 |
| Display.BmoDisplay.InitializeSpi | src/display.cpp:174-193 | the eight pin events of the SPI set-up are recorded and the step reports success |
| Display.BmoDisplay.DetectController | src/display.cpp:195-228 | reports success and leaves the state `DisplayModel.DetectController` gives |
| Display.BmoDisplay.ReadDisplayId | src/display.cpp:197-207 | the id built by shift and or equals `PackId` of the three answers; the command and three reads are sent in order |
| Display.BmoDisplay.ConfigureDisplay | src/display.cpp:230-249 | reports success and sends rotation 0 and the controller's sequence, ILI9341 for UNKNOWN |
| Display.BmoDisplay.InitIli9341 | src/display.cpp:251-275 | sends exactly the 11 ILI9341 command and data bytes and reports success |
| Display.BmoDisplay.InitSt7789 | src/display.cpp:277-290 | sends exactly the 4 ST7789 command and data bytes and reports success |
| Display.BmoDisplay.TestDisplay | src/display.cpp:304-332 | the result and new state are those of `DisplayModel.TestDisplay` |
| Display.BmoDisplay.TestSpiConnection | src/display.cpp:334-345 | the result and new state are those of `DisplayModel.TestSpiConnection` |
| Display.BmoDisplay.TestDisplayMemory | src/display.cpp:347-357 | the result and new state are those of `DisplayModel.TestDisplayMemory` |
| FaceCommands.Quot | src/graphics.cpp:138 | C division on `int` truncates toward zero: for `a >= 0` the remainder `a - q*b` lies in `[0, b)`, for `a < 0` in `(-b, 0]` |
| FaceCommands.ThickLineShape | src/graphics.cpp:259-266 | thickness `t` > 0 gives exactly t·t lines in the line's colour; the one in iteration (i, j) is the segment shifted by (i - t/2, j - t/2) |
| FaceCommands.ThickLineLinesOnly | src/graphics.cpp:259-266 | a thick line is only lines; thickness 0 or less draws nothing |
| FaceCommands.ThickPathShape | src/graphics.cpp:210-223 | a path of `n` thick segments is n·t·t lines, all in the path's colour |
| FaceCommands.CurveShape | src/graphics.cpp:268-287 | a curve is 20 joined segments, each `width / 20` wide, from `cx - width/2`; it is 180 lines in its colour |
| FaceCommands.ZigZagShape | src/graphics.cpp:210-223 | the confused mouth is 8 joined segments of width 7 from cx - 30 to cx + 26, ends alternating 5 above and 5 below the centre line; 32 black lines |
| FaceCommands.TeethPositions | src/graphics.cpp:199-208 | the excited mouth is the 180-line curve then four white teeth at x = cx - 20 + 13i, 8 below the centre |
| FaceCommands.FrameShape | src/graphics.cpp:225-239 | the frame is rounded rects (i, i, 240 - 2i, 320 - 2i, 12) for i = 0 .. 5, then (6, 6, 228, 308, 10) |
| FaceCommands.BackgroundShape | src/graphics.cpp:77-86 | one teal fill, then 80 full-width lines at y = 0, 4, ..., 316 in order, so every fourth row gets one |
| FaceCommands.ClosedEyeShape | src/graphics.cpp:136-149 | a closed eye is 4 lines at y offsets -2 .. 1 from cx - width/2 to cx + width/2, then two end circles of radius 2; `width/2` truncates as in C |
| FaceCommands.EyePlacement | src/graphics.cpp:88-95 | the eyes are centred at (70, 120) and (170, 120), left first; an undeclared state draws no eye |
| FaceCommands.MouthPlacement | src/graphics.cpp:151-180 | the mouth is centred at (120, 190); each declared expression draws its own mouth, and any other code draws the happy mouth |
| FaceCommands.OpenEyes | src/graphics.cpp:97-134 | open eyes are a black disc of radius 25 with a darkened outline and two white highlights each, at the exact offsets |
| FaceCommands.BlinkShape | src/graphics.cpp:241-252 | a blink draws two 50-wide closed eyes, then the open eyes: 20 calls, none of them a bracket |
| FaceCommands.EyesUnbracketed | src/graphics.cpp:88-126 | drawing the eyes never opens or closes a batched write |
| FaceCommands.MouthUnbracketed | src/graphics.cpp:151-223 | drawing any mouth never opens or closes a batched write |
| FaceCommands.FaceBracketing | src/graphics.cpp:50-68 | a face is one `startWrite` first, one `endWrite` last, and in between background, frame, eyes and mouth with no bracket among them |
| Renderer.BmoGraphics.constructor | src/graphics.cpp:12-23 | unbound, not fast-drawing, happy expression and open eyes |
| Renderer.BmoGraphics.Begin | src/graphics.cpp:29-39 | binds to the handle, `initialized == (handle != null)`; the global is set only on a non-null handle |
| Renderer.BmoGraphics.End | src/graphics.cpp:41-48 | unbinds and clears the global when bound; when unbound, nothing changes, so a second `end` has no effect |
| Renderer.BmoGraphics.DrawBMOFace | src/graphics.cpp:50-69 | when bound, it records expression and eye state, appends exactly `FaceCmds`, and ends with `fastDrawMode` false, leaving the `g_bmoGraphics` registration as it was; when unbound, nothing changes |
| Renderer.BmoGraphics.ClearScreen | src/graphics.cpp:71-75 | one fill when bound, nothing when unbound |
| Renderer.BmoGraphics.StartFastDraw | src/graphics.cpp:294-299 | when bound, it sends `startWrite` and sets `fastDrawMode`; otherwise nothing changes; the `g_bmoGraphics` registration never changes |
| Renderer.BmoGraphics.EndFastDraw | src/graphics.cpp:301-306 | `endWrite` is sent, and `fastDrawMode` cleared, only when bound and fast-drawing; otherwise nothing is sent; the `g_bmoGraphics` registration never changes |
| Renderer.BmoGraphics.DrawBackground | src/graphics.cpp:77-86 | appends exactly `BackgroundCmds()` |
| Renderer.BmoGraphics.DrawFrame | src/graphics.cpp:225-239 | appends exactly `FrameCmds()` |
| Renderer.BmoGraphics.DrawEyes | src/graphics.cpp:88-95 | appends exactly `EyesCmds(state)` |
| Renderer.BmoGraphics.DrawEye | src/graphics.cpp:97-126 | appends exactly `EyeCmds(cx, cy, state)` |
| Renderer.BmoGraphics.DrawEyeHighlight | src/graphics.cpp:128-134 | appends the two highlight circles |
| Renderer.BmoGraphics.DrawClosedEye | src/graphics.cpp:136-149 | appends exactly `ClosedEyeCmds(cx, cy, width)` |
| Renderer.BmoGraphics.DrawMouth | src/graphics.cpp:151-180 | appends exactly `MouthCmds(expression)` |
| Renderer.BmoGraphics.DrawHappyMouth | src/graphics.cpp:182-185 | appends the 60 × 20 curve |
| Renderer.BmoGraphics.DrawSurprisedMouth | src/graphics.cpp:187-192 | appends the two ellipses |
| Renderer.BmoGraphics.DrawSleepyMouth | src/graphics.cpp:194-197 | appends the 40-wide line, 3 thick |
| Renderer.BmoGraphics.DrawExcitedMouth | src/graphics.cpp:199-208 | appends the 80 × 30 curve and the four teeth |
| Renderer.BmoGraphics.DrawConfusedMouth | src/graphics.cpp:210-223 | appends exactly the zig-zag path drawn 2 thick |
| Renderer.BmoGraphics.AnimateBlink | src/graphics.cpp:241-252 | appends exactly `BlinkCmds()` when bound, nothing when unbound |
| Renderer.BmoGraphics.DrawSmoothCircle | src/graphics.cpp:254-257 | appends a disc and its darkened outline |
| Renderer.BmoGraphics.DrawAntiAliasedCircle | src/graphics.cpp:326-333 | appends a disc and its darkened outline |
| Renderer.BmoGraphics.DrawThickLine | src/graphics.cpp:259-266 | appends exactly `ThickLine(segment, thickness, colour)`; the nested loops are proved row by row |
| Renderer.BmoGraphics.DrawCurve | src/graphics.cpp:268-287 | appends exactly `CurveCmds`, the 20 segments each drawn 3 thick |
| Renderer.BmoGraphics.DrawRoundedRect | src/graphics.cpp:289-292 | appends one rounded rectangle |

## Left out

- The floating-point parts are not modelled:
  - the background gradient colours (`blendColors`, src/graphics.cpp:308-324);
  - the smooth-circle outline colour (`darkenColor`, src/graphics.cpp:335-345);
  - the parabola heights of `drawCurve`.
  The colours are the opaque tags `Gradient(y)` and `Darkened(base)`. The
  heights are the caller-supplied function `rise`. The model therefore says
  nothing about the y values of a curve, only that consecutive segments share
  their end points.
- Delays (`delay`) take no part. The pin and PWM events of the driver are
  recorded in `pins`, in order.
- The relative order between pin events and panel calls is not captured,
  because the two are kept in separate records.
- Register reads (`readcommand8`) are recorded as calls. The values they
  return are the `Probe` supplied with `begin`.
- TFT_eSPI itself (`init`, `setRotation`, `fillCircle`, `drawRoundRect` and
  the other primitives) is foreign code. It is represented only by the calls
  made to it.
- The `width()`/`height()` check in `configureDisplay` is left out. It only
  prints a warning and changes nothing.
- Logging is not modelled: all `Serial` output, `printDisplayInfo` and
  `printGraphicsInfo`.
- These functions are declared in src/graphics.h:94-132 but defined nowhere,
  so there is no behaviour to model: `animateExpressionChange`,
  `fadeTransition`, `lightenColor`, `setDrawRegion`, `drawColorTest`,
  `drawGeometryTest`, `drawPixelSafe`, `isInDrawRegion` and
  `drawBezierCurve`.
- The draw-region fields of `BMOGraphics` are set only by the constructor and
  used by no modelled routine.
- config/User_Setup.h is not part of this model. It holds compile-time
  settings only.
- The destructors are not modelled. `~BMOGraphics` calls `end`, and
  `~BMODisplay` calls `end`; deallocation has no counterpart here.
- The globals `g_bmoDisplay` and `g_bmoGraphics` are each a ghost flag,
  `published`, on the one object that sets them. Another object overwriting
  a global is not modelled.
- Display.BmoDisplay.Begin: the failure branches after `initializeSPI`,
  `detectController` and `configureDisplay` are not written out. Those steps
  always report success, which their `ensures ok` proves, so the branches can
  never be taken.
- Display.BmoDisplay.TestDisplay: the failure branch after
  `testDisplayMemory` is not written out, for the same reason.
- Renderer.BmoGraphics.DrawBackground: requires a bound handle (`tft != null`). The source has no `initialized` guard here and dereferences `tft`, so on an unbound renderer its behaviour is undefined rather than a no-op; only the guarded entry points (`drawBMOFace`, `clearScreen`, `animateBlink`, `startFastDraw`, `endFastDraw`) are modelled on an unbound renderer.
- Renderer.BmoGraphics.DrawFrame: requires a bound handle (`tft != null`). The source has no `initialized` guard here and dereferences `tft`, so on an unbound renderer its behaviour is undefined rather than a no-op; only the guarded entry points (`drawBMOFace`, `clearScreen`, `animateBlink`, `startFastDraw`, `endFastDraw`) are modelled on an unbound renderer.
- Renderer.BmoGraphics.DrawEyes: requires a bound handle (`tft != null`). The source has no `initialized` guard here and dereferences `tft`, so on an unbound renderer its behaviour is undefined rather than a no-op; only the guarded entry points (`drawBMOFace`, `clearScreen`, `animateBlink`, `startFastDraw`, `endFastDraw`) are modelled on an unbound renderer.
- Renderer.BmoGraphics.DrawEye: requires a bound handle (`tft != null`). The source has no `initialized` guard here and dereferences `tft`, so on an unbound renderer its behaviour is undefined rather than a no-op; only the guarded entry points (`drawBMOFace`, `clearScreen`, `animateBlink`, `startFastDraw`, `endFastDraw`) are modelled on an unbound renderer.
- Renderer.BmoGraphics.DrawEyeHighlight: requires a bound handle (`tft != null`). The source has no `initialized` guard here and dereferences `tft`, so on an unbound renderer its behaviour is undefined rather than a no-op; only the guarded entry points (`drawBMOFace`, `clearScreen`, `animateBlink`, `startFastDraw`, `endFastDraw`) are modelled on an unbound renderer.
- Renderer.BmoGraphics.DrawClosedEye: requires a bound handle (`tft != null`). The source has no `initialized` guard here and dereferences `tft`, so on an unbound renderer its behaviour is undefined rather than a no-op; only the guarded entry points (`drawBMOFace`, `clearScreen`, `animateBlink`, `startFastDraw`, `endFastDraw`) are modelled on an unbound renderer.
- Renderer.BmoGraphics.DrawMouth: requires a bound handle (`tft != null`). The source has no `initialized` guard here and dereferences `tft`, so on an unbound renderer its behaviour is undefined rather than a no-op; only the guarded entry points (`drawBMOFace`, `clearScreen`, `animateBlink`, `startFastDraw`, `endFastDraw`) are modelled on an unbound renderer.
- Renderer.BmoGraphics.DrawHappyMouth: requires a bound handle (`tft != null`). The source has no `initialized` guard here and dereferences `tft`, so on an unbound renderer its behaviour is undefined rather than a no-op; only the guarded entry points (`drawBMOFace`, `clearScreen`, `animateBlink`, `startFastDraw`, `endFastDraw`) are modelled on an unbound renderer.
- Renderer.BmoGraphics.DrawSurprisedMouth: requires a bound handle (`tft != null`). The source has no `initialized` guard here and dereferences `tft`, so on an unbound renderer its behaviour is undefined rather than a no-op; only the guarded entry points (`drawBMOFace`, `clearScreen`, `animateBlink`, `startFastDraw`, `endFastDraw`) are modelled on an unbound renderer.
- Renderer.BmoGraphics.DrawSleepyMouth: requires a bound handle (`tft != null`). The source has no `initialized` guard here and dereferences `tft`, so on an unbound renderer its behaviour is undefined rather than a no-op; only the guarded entry points (`drawBMOFace`, `clearScreen`, `animateBlink`, `startFastDraw`, `endFastDraw`) are modelled on an unbound renderer.
- Renderer.BmoGraphics.DrawExcitedMouth: requires a bound handle (`tft != null`). The source has no `initialized` guard here and dereferences `tft`, so on an unbound renderer its behaviour is undefined rather than a no-op; only the guarded entry points (`drawBMOFace`, `clearScreen`, `animateBlink`, `startFastDraw`, `endFastDraw`) are modelled on an unbound renderer.
- Renderer.BmoGraphics.DrawConfusedMouth: requires a bound handle (`tft != null`). The source has no `initialized` guard here and dereferences `tft`, so on an unbound renderer its behaviour is undefined rather than a no-op; only the guarded entry points (`drawBMOFace`, `clearScreen`, `animateBlink`, `startFastDraw`, `endFastDraw`) are modelled on an unbound renderer.
- Renderer.BmoGraphics.DrawSmoothCircle: requires a bound handle (`tft != null`). The source has no `initialized` guard here and dereferences `tft`, so on an unbound renderer its behaviour is undefined rather than a no-op; only the guarded entry points (`drawBMOFace`, `clearScreen`, `animateBlink`, `startFastDraw`, `endFastDraw`) are modelled on an unbound renderer.
- Renderer.BmoGraphics.DrawAntiAliasedCircle: requires a bound handle (`tft != null`). The source has no `initialized` guard here and dereferences `tft`, so on an unbound renderer its behaviour is undefined rather than a no-op; only the guarded entry points (`drawBMOFace`, `clearScreen`, `animateBlink`, `startFastDraw`, `endFastDraw`) are modelled on an unbound renderer.
- Renderer.BmoGraphics.DrawThickLine: requires a bound handle (`tft != null`). The source has no `initialized` guard here and dereferences `tft`, so on an unbound renderer its behaviour is undefined rather than a no-op; only the guarded entry points (`drawBMOFace`, `clearScreen`, `animateBlink`, `startFastDraw`, `endFastDraw`) are modelled on an unbound renderer.
- Renderer.BmoGraphics.DrawCurve: requires a bound handle (`tft != null`). The source has no `initialized` guard here and dereferences `tft`, so on an unbound renderer its behaviour is undefined rather than a no-op; only the guarded entry points (`drawBMOFace`, `clearScreen`, `animateBlink`, `startFastDraw`, `endFastDraw`) are modelled on an unbound renderer.
- Renderer.BmoGraphics.DrawRoundedRect: requires a bound handle (`tft != null`). The source has no `initialized` guard here and dereferences `tft`, so on an unbound renderer its behaviour is undefined rather than a no-op; only the guarded entry points (`drawBMOFace`, `clearScreen`, `animateBlink`, `startFastDraw`, `endFastDraw`) are modelled on an unbound renderer.
- Display.BmoDisplay.TestDisplay: requires a handle (`tft != null`). The public `testDisplay` does not check `initialized` and dereferences `tft` (src/display.cpp:318, 337), so calling it before a successful `begin` is undefined in the source and is not modelled.
- `drawBMOFace`, `drawEye` and `drawMouth` take the enumerations as `int`
  codes. C lets any `int` through, and the model covers the codes outside
  the declared lists as the `switch` statements handle them.
