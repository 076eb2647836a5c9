/**
 * `BMOGraphics`: binds to a panel handle and draws the BMO face through it.
 * Every drawing routine is proved to append to the panel's command record
 * exactly the sequence FaceCommands gives for its arguments.
 */
module Renderer {
  import opened Wrappers
  import opened Rgb565
  import opened FaceLayout
  import opened Panel
  import opened FaceCommands

  class BmoGraphics {
    var tft: Tft?
    var initialized: bool
    var currentExpression: int
    var currentEyeState: int
    var fastDrawMode: bool
    /** Whether `g_bmoGraphics` was last set to this renderer. */
    ghost var published: bool
    /** The floating-point parabola `drawCurve` evaluates. */
    const rise: CurveRise

    /** The renderer is bound exactly when it holds a handle. */
    ghost predicate Valid()
      reads this
    {
      initialized <==> tft != null
    }

    constructor (rise: CurveRise)
      ensures Valid() && tft == null && !initialized && !fastDrawMode && !published
      ensures currentExpression == ExpressionCode(Happy) && currentEyeState == EyeStateCode(EyesOpen)
      ensures this.rise == rise
    {
      tft := null;
      initialized := false;
      currentExpression := ExpressionCode(Happy);
      currentEyeState := EyeStateCode(EyesOpen);
      fastDrawMode := false;
      published := false;
      this.rise := rise;
    }

    /**
     * Binds to `display`; binding to null leaves the renderer unbound but
     * does not clear `g_bmoGraphics`.
     */
    method Begin(display: Tft?)
      modifies this
      ensures Valid()
      ensures tft == display && initialized == (display != null)
      ensures published == (initialized || old(published))
      ensures currentExpression == old(currentExpression) && currentEyeState == old(currentEyeState)
      ensures fastDrawMode == old(fastDrawMode)
    {
      tft := display;
      initialized := tft != null;
      if initialized {
        published := true;
      }
    }

    /** Unbinds; a renderer that is not bound is left as it is. */
    method End()
      requires Valid()
      modifies this
      ensures Valid() && tft == null && !initialized
      ensures old(initialized) ==> !published
      ensures !old(initialized) ==> unchanged(this)
      ensures currentExpression == old(currentExpression) && currentEyeState == old(currentEyeState)
      ensures fastDrawMode == old(fastDrawMode)
    {
      if initialized {
        tft := null;
        initialized := false;
        published := false;
      }
    }

    /**
     * `drawBMOFace(expression, eyeState)`: when bound, records the pair and
     * draws background, frame, eyes and mouth inside one batched write;
     * when unbound, does nothing.
     */
    method DrawBMOFace(expression: int, eyeState: int)
      requires Valid()
      modifies this, tft
      ensures Valid() && tft == old(tft) && initialized == old(initialized)
      ensures !old(initialized) ==> unchanged(this)
      ensures old(initialized) ==>
        && currentExpression == expression && currentEyeState == eyeState && !fastDrawMode
        && published == old(published)
        && tft.cmds == old(tft.cmds) + FaceCmds(expression, eyeState, rise)
    {
      if !initialized {
        return;
      }
      currentExpression := expression;
      currentEyeState := eyeState;
      ghost var c0 := tft.cmds;
      StartFastDraw();
      ghost var c1 := tft.cmds;
      DrawBackground();
      ghost var c2 := tft.cmds;
      DrawFrame();
      ghost var c3 := tft.cmds;
      DrawEyes(eyeState);
      ghost var c4 := tft.cmds;
      DrawMouth(expression);
      ghost var c5 := tft.cmds;
      EndFastDraw();
      AppendSix(c0, c1, c2, c3, c4, c5, tft.cmds, [StartWrite], BackgroundCmds(), FrameCmds(),
                EyesCmds(eyeState), MouthCmds(expression, rise), [EndWrite]);
    }

    /** `clearScreen(color)`: one fill when bound, nothing otherwise. */
    method ClearScreen(color: bv16)
      requires Valid()
      modifies tft
      ensures tft != null ==> tft.cmds == old(tft.cmds) + [FillScreen(Solid(color))]
    {
      if initialized {
        tft.Send(FillScreen(Solid(color)));
      }
    }

    /** Opens a batched write when bound. */
    method StartFastDraw()
      requires Valid()
      modifies this, tft
      ensures Valid() && tft == old(tft) && initialized == old(initialized)
      ensures currentExpression == old(currentExpression) && currentEyeState == old(currentEyeState)
      ensures !old(initialized) ==> unchanged(this)
      ensures old(initialized) ==> fastDrawMode && tft.cmds == old(tft.cmds) + [StartWrite]
      ensures published == old(published)
    {
      if initialized {
        tft.Send(StartWrite);
        fastDrawMode := true;
      }
    }

    /** Closes the batched write, but only one that is open. */
    method EndFastDraw()
      requires Valid()
      modifies this, tft
      ensures Valid() && tft == old(tft) && initialized == old(initialized)
      ensures currentExpression == old(currentExpression) && currentEyeState == old(currentEyeState)
      ensures !(old(initialized) && old(fastDrawMode)) ==> unchanged(this) && (tft != null ==> tft.cmds == old(tft.cmds))
      ensures old(initialized) && old(fastDrawMode) ==> !fastDrawMode && tft.cmds == old(tft.cmds) + [EndWrite]
      ensures published == old(published)
    {
      if initialized && fastDrawMode {
        tft.Send(EndWrite);
        fastDrawMode := false;
      }
    }

    method DrawBackground()
      requires tft != null
      modifies tft
      ensures tft.cmds == old(tft.cmds) + BackgroundCmds()
    {
      tft.Send(FillScreen(Solid(Teal)));
      var y := 0;
      while y < DisplayHeight
        invariant 0 <= y <= DisplayHeight && y % 4 == 0
        invariant tft.cmds == old(tft.cmds) + [FillScreen(Solid(Teal))] + GradientLines(y / 4)
      {
        tft.Send(DrawFastHLine(0, y, DisplayWidth, Gradient(y)));
        assert GradientLines(y / 4 + 1) == GradientLines(y / 4) + [DrawFastHLine(0, y, DisplayWidth, Gradient(y))];
        y := y + 4;
      }
    }

    method DrawFrame()
      requires tft != null
      modifies tft
      ensures tft.cmds == old(tft.cmds) + FrameCmds()
    {
      var i := 0;
      while i < FrameThickness
        invariant 0 <= i <= FrameThickness
        invariant tft.cmds == old(tft.cmds) + FrameRings(i)
      {
        DrawRoundedRect(i, i, DisplayWidth - i * 2, DisplayHeight - i * 2, FrameCornerRadius, DarkTeal);
        assert FrameRings(i + 1) == FrameRings(i) + [DrawRoundRect(i, i, DisplayWidth - i * 2, DisplayHeight - i * 2, FrameCornerRadius, Solid(DarkTeal))];
        i := i + 1;
      }
      DrawRoundedRect(FrameThickness, FrameThickness, DisplayWidth - FrameThickness * 2,
                      DisplayHeight - FrameThickness * 2, FrameCornerRadius - 2, LightTeal);
    }

    method DrawEyes(state: int)
      requires tft != null
      modifies tft
      ensures tft.cmds == old(tft.cmds) + EyesCmds(state)
    {
      var leftEyeX := FaceCenterX - EyeSeparation / 2;
      var rightEyeX := FaceCenterX + EyeSeparation / 2;
      var eyeY := FaceCenterY + EyeYOffset;
      ghost var start := tft.cmds;
      DrawEye(leftEyeX, eyeY, state, true);
      DrawEye(rightEyeX, eyeY, state, false);
      ConcatAssoc(start, EyeCmds(leftEyeX, eyeY, state), EyeCmds(rightEyeX, eyeY, state));
    }

    /** `drawEye`; `isLeft` does not change what is drawn. */
    method DrawEye(cx: int, cy: int, state: int, isLeft: bool)
      requires tft != null
      modifies tft
      ensures tft.cmds == old(tft.cmds) + EyeCmds(cx, cy, state)
    {
      match EyeStateOf(state)
      case Some(EyesOpen) =>
        DrawSmoothCircle(cx, cy, EyeRadius, Black);
        DrawEyeHighlight(cx, cy);
      case Some(EyesClosed) =>
        DrawClosedEye(cx, cy, EyeRadius * 2);
      case Some(EyesHalfClosed) =>
        tft.Send(FillEllipse(cx, cy, EyeRadius, EyeRadius / 2, Solid(Black)));
        DrawEyeHighlight(cx, cy - EyeRadius / 4);
      case Some(EyesWide) =>
        DrawSmoothCircle(cx, cy, EyeRadius + 5, Black);
        DrawEyeHighlight(cx, cy);
        tft.Send(FillCircle(cx + 5, cy - 5, 3, Solid(White)));
      case None =>
    }

    method DrawEyeHighlight(cx: int, cy: int)
      requires tft != null
      modifies tft
      ensures tft.cmds == old(tft.cmds) + EyeHighlightCmds(cx, cy)
    {
      tft.Send(FillCircle(cx - 8, cy - 8, 6, Solid(White)));
      tft.Send(FillCircle(cx - 5, cy - 12, 2, Solid(White)));
    }

    method DrawClosedEye(cx: int, cy: int, width: int)
      requires tft != null
      modifies tft
      ensures tft.cmds == old(tft.cmds) + ClosedEyeCmds(cx, cy, width)
    {
      var thickness := ClosedEyeThickness;
      var halfWidth := Quot(width, 2);
      var i := 0;
      while i < thickness
        invariant 0 <= i <= thickness
        invariant tft.cmds == old(tft.cmds) + ClosedEyeLines(cx, cy, halfWidth, i)
      {
        var line := DrawLine(cx - halfWidth, cy + i - thickness / 2, cx + halfWidth, cy + i - thickness / 2, Solid(Black));
        tft.Send(line);
        assert ClosedEyeLines(cx, cy, halfWidth, i + 1) == ClosedEyeLines(cx, cy, halfWidth, i) + [line];
        i := i + 1;
      }
      tft.Send(FillCircle(cx - halfWidth, cy, thickness / 2, Solid(Black)));
      tft.Send(FillCircle(cx + halfWidth, cy, thickness / 2, Solid(Black)));
    }

    /** `drawMouth`; an undeclared expression code falls back to the happy mouth. */
    method DrawMouth(expression: int)
      requires tft != null
      modifies tft
      ensures tft.cmds == old(tft.cmds) + MouthCmds(expression, rise)
    {
      var mouthX := FaceCenterX;
      var mouthY := FaceCenterY + MouthYOffset;
      match ExpressionOf(expression)
      case Some(Happy) => DrawHappyMouth(mouthX, mouthY);
      case Some(Surprised) => DrawSurprisedMouth(mouthX, mouthY);
      case Some(Sleepy) => DrawSleepyMouth(mouthX, mouthY);
      case Some(Excited) => DrawExcitedMouth(mouthX, mouthY);
      case Some(Confused) => DrawConfusedMouth(mouthX, mouthY);
      case None => DrawHappyMouth(mouthX, mouthY);
    }

    method DrawHappyMouth(cx: int, cy: int)
      requires tft != null
      modifies tft
      ensures tft.cmds == old(tft.cmds) + HappyMouthCmds(cx, cy, rise)
    {
      DrawCurve(cx, cy, MouthWidth, MouthHeight, Black, true);
    }

    method DrawSurprisedMouth(cx: int, cy: int)
      requires tft != null
      modifies tft
      ensures tft.cmds == old(tft.cmds) + SurprisedMouthCmds(cx, cy)
    {
      tft.Send(FillEllipse(cx, cy, 15, 20, Solid(Black)));
      tft.Send(FillEllipse(cx, cy, 10, 15, Solid(Teal)));
    }

    method DrawSleepyMouth(cx: int, cy: int)
      requires tft != null
      modifies tft
      ensures tft.cmds == old(tft.cmds) + SleepyMouthCmds(cx, cy)
    {
      DrawThickLine(cx - 20, cy, cx + 20, cy, 3, Black);
    }

    method DrawExcitedMouth(cx: int, cy: int)
      requires tft != null
      modifies tft
      ensures tft.cmds == old(tft.cmds) + ExcitedMouthCmds(cx, cy, rise)
    {
      DrawCurve(cx, cy, MouthWidth + 20, MouthHeight + 10, Black, true);
      ghost var afterCurve := tft.cmds;
      var i := 0;
      while i < 4
        invariant 0 <= i <= 4
        invariant tft.cmds == afterCurve + Teeth(cx, cy, i)
      {
        var toothX := cx - 20 + i * 13;
        tft.Send(FillRect(toothX, cy + 8, 3, 8, Solid(White)));
        assert Teeth(cx, cy, i + 1) == Teeth(cx, cy, i) + [FillRect(toothX, cy + 8, 3, 8, Solid(White))];
        i := i + 1;
      }
    }

    method DrawConfusedMouth(cx: int, cy: int)
      requires tft != null
      modifies tft
      ensures tft.cmds == old(tft.cmds) + ConfusedMouthCmds(cx, cy)
    {
      var segments := ZigZagSegments;
      var segmentWidth := MouthWidth / segments;
      ghost var path := ZigZagPath(cx, cy);
      ghost var start := tft.cmds;
      var i := 0;
      while i < segments
        invariant 0 <= i <= segments
        invariant tft.cmds == start + ThickPath(path[..i], 2, Solid(Black))
      {
        var x1 := cx - MouthWidth / 2 + i * segmentWidth;
        var x2 := x1 + segmentWidth;
        var y1 := cy + (if i % 2 == 0 then -5 else 5);
        var y2 := cy + (if i % 2 == 0 then 5 else -5);
        assert path[i] == ZigZagSegment(cx, cy, i) == Segment(x1, y1, x2, y2);
        ghost var pre := tft.cmds;
        DrawThickLine(x1, y1, x2, y2, 2, Black);
        ThickPathExtend(start, pre, tft.cmds, path, i, 2, Solid(Black));
        i := i + 1;
      }
      assert path[..segments] == path;
    }

    /** `animateBlink`: closed eyes, a pause, open eyes; nothing when unbound. */
    method AnimateBlink()
      requires Valid()
      modifies tft
      ensures tft != null ==> tft.cmds == old(tft.cmds) + BlinkCmds()
    {
      if !initialized {
        return;
      }
      DrawEyes(EyeStateCode(EyesClosed));
      DrawEyes(EyeStateCode(EyesOpen));
    }

    method DrawSmoothCircle(cx: int, cy: int, radius: int, color: bv16)
      requires tft != null
      modifies tft
      ensures tft.cmds == old(tft.cmds) + SmoothCircleCmds(cx, cy, radius, color)
    {
      DrawAntiAliasedCircle(cx, cy, radius, color);
    }

    method DrawAntiAliasedCircle(cx: int, cy: int, radius: int, color: bv16)
      requires tft != null
      modifies tft
      ensures tft.cmds == old(tft.cmds) + SmoothCircleCmds(cx, cy, radius, color)
    {
      tft.Send(FillCircle(cx, cy, radius, Solid(color)));
      tft.Send(DrawCircle(cx, cy, radius, Darkened(color)));
    }

    /** `drawThickLine`: the line drawn once for every offset (i - t/2, j - t/2), i, j in [0, t). */
    method DrawThickLine(x1: int, y1: int, x2: int, y2: int, thickness: int, color: bv16)
      requires tft != null
      modifies tft
      ensures tft.cmds == old(tft.cmds) + ThickLine(Segment(x1, y1, x2, y2), thickness, Solid(color))
    {
      ghost var s, paint, start := Segment(x1, y1, x2, y2), Solid(color), tft.cmds;
      var i := 0;
      while i < thickness
        invariant thickness <= 0 ==> i == 0 && tft.cmds == start
        invariant thickness > 0 ==> 0 <= i <= thickness && tft.cmds == start + ThickRows(s, thickness, i, paint)
      {
        ghost var rows := tft.cmds;
        var j := 0;
        while j < thickness
          invariant 0 <= j <= thickness
          invariant tft.cmds == rows + ThickRow(s, thickness, i, j, paint)
        {
          tft.Send(DrawLine(x1 + i - thickness / 2, y1 + j - thickness / 2,
                            x2 + i - thickness / 2, y2 + j - thickness / 2, Solid(color)));
          ConcatAssoc(rows, ThickRow(s, thickness, i, j, paint), [ShiftedLine(s, i - thickness / 2, j - thickness / 2, paint)]);
          j := j + 1;
        }
        ConcatAssoc(start, ThickRows(s, thickness, i, paint), ThickRow(s, thickness, i, thickness, paint));
        i := i + 1;
      }
    }

    /** `drawCurve`: twenty segments from cx - width/2, each drawn three pixels thick. */
    method DrawCurve(cx: int, cy: int, width: int, height: int, color: bv16, upward: bool)
      requires tft != null
      modifies tft
      ensures tft.cmds == old(tft.cmds) + CurveCmds(cx, cy, width, height, Solid(color), upward, rise)
    {
      var segments := CurveSegmentCount;
      var startX := cx - Quot(width, 2);
      var segmentWidth := Quot(width, segments);
      ghost var path := CurvePath(cx, cy, width, height, upward, rise);
      ghost var start := tft.cmds;
      var i := 0;
      while i < segments
        invariant 0 <= i <= segments
        invariant tft.cmds == start + ThickPath(path[..i], 3, Solid(color))
      {
        var x1 := startX + i * segmentWidth;
        var x2 := startX + (i + 1) * segmentWidth;
        var y1 := CurveY(cx, cy, x1, Quot(width, 2), height, upward, rise);
        var y2 := CurveY(cx, cy, x2, Quot(width, 2), height, upward, rise);
        CurvePathAt(cx, cy, width, height, upward, rise, i, x1, x2);
        ghost var pre := tft.cmds;
        DrawThickLine(x1, y1, x2, y2, 3, color);
        ThickPathExtend(start, pre, tft.cmds, path, i, 3, Solid(color));
        i := i + 1;
      }
      assert path[..segments] == path;
    }

    method DrawRoundedRect(x: int, y: int, width: int, height: int, radius: int, color: bv16)
      requires tft != null
      modifies tft
      ensures tft.cmds == old(tft.cmds) + [DrawRoundRect(x, y, width, height, radius, Solid(color))]
    {
      tft.Send(DrawRoundRect(x, y, width, height, radius, Solid(color)));
    }
  }
}
