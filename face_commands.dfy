/**
 * The exact sequence of driver calls each drawing routine of graphics.cpp
 * issues, as functions of the routine's arguments. The renderer's methods
 * are proved to append exactly these sequences; the lemmas here state the
 * geometry the routines promise.
 */
module FaceCommands {
  import opened Wrappers
  import opened Rgb565
  import opened FaceLayout
  import opened Panel

  /** C's `/` on `int`, which truncates toward zero. */
  function Quot(a: int, b: int): (q: int)
    requires b > 0
    ensures a >= 0 ==> 0 <= a - q * b < b
    ensures a < 0 ==> -b < a - q * b <= 0
  {
    if a >= 0 then a / b else -((-a) / b)
  }

  /** The end points of one line as the caller passes them. */
  datatype Segment = Segment(x1: int, y1: int, x2: int, y2: int)

  /** The segment moved by (dx, dy) and drawn as one line. */
  function ShiftedLine(s: Segment, dx: int, dy: int, paint: Paint): DrawCmd {
    DrawLine(s.x1 + dx, s.y1 + dy, s.x2 + dx, s.y2 + dy, paint)
  }

  /** Every command is a line in the given paint. */
  ghost predicate LinesOnly(cmds: seq<DrawCmd>, paint: Paint) {
    forall c :: c in cmds ==> c.DrawLine? && c.paint == paint
  }

  /** No command opens or closes a batched-write scope. */
  ghost predicate Unbracketed(cmds: seq<DrawCmd>) {
    forall c :: c in cmds ==> !c.IsBracket()
  }

  // ---------------------------------------------------------------------
  // drawThickLine: t * t copies of the line, shifted by (i - t/2, j - t/2)
  // for i, j in [0, t), the inner loop over j.

  /** The first `n` lines of row `i` of a thick line of thickness `t`. */
  function ThickRow(s: Segment, t: int, i: int, n: nat, paint: Paint): seq<DrawCmd>
    requires t > 0
  {
    if n == 0 then []
    else ThickRow(s, t, i, n - 1, paint) + [ShiftedLine(s, i - t / 2, (n - 1) - t / 2, paint)]
  }

  /** The first `n` full rows of a thick line of thickness `t`. */
  function ThickRows(s: Segment, t: int, n: nat, paint: Paint): seq<DrawCmd>
    requires t > 0
  {
    if n == 0 then [] else ThickRows(s, t, n - 1, paint) + ThickRow(s, t, n - 1, t, paint)
  }

  /** `drawThickLine(x1, y1, x2, y2, t, color)`; a thickness of zero or less draws nothing. */
  function ThickLine(s: Segment, t: int, paint: Paint): seq<DrawCmd> {
    if t <= 0 then [] else ThickRows(s, t, t, paint)
  }

  lemma {:induction false} ThickRowAt(s: Segment, t: int, i: int, n: nat, paint: Paint, j: int)
    requires t > 0 && 0 <= j < n
    ensures |ThickRow(s, t, i, n, paint)| == n
    ensures ThickRow(s, t, i, n, paint)[j] == ShiftedLine(s, i - t / 2, j - t / 2, paint)
  {
    if j < n - 1 {
      ThickRowAt(s, t, i, n - 1, paint, j);
    } else if n > 1 {
      ThickRowAt(s, t, i, n - 1, paint, 0);
    }
  }

  lemma {:induction false} ThickRowsLength(s: Segment, t: int, n: nat, paint: Paint)
    requires t > 0
    ensures |ThickRows(s, t, n, paint)| == n * t
  {
    if n > 0 {
      ThickRowsLength(s, t, n - 1, paint);
      ThickRowAt(s, t, n - 1, t, paint, 0);
      assert (n - 1) * t + t == n * t;
    }
  }

  lemma {:induction false} ThickRowsAt(s: Segment, t: int, n: nat, paint: Paint, i: int, j: int)
    requires t > 0 && 0 <= i < n && 0 <= j < t
    ensures |ThickRows(s, t, n, paint)| == n * t && i * t + j < n * t
    ensures ThickRows(s, t, n, paint)[i * t + j] == ShiftedLine(s, i - t / 2, j - t / 2, paint)
  {
    var prev, row := ThickRows(s, t, n - 1, paint), ThickRow(s, t, n - 1, t, paint);
    assert ThickRows(s, t, n, paint) == prev + row;
    ThickRowsLength(s, t, n - 1, paint);
    ThickRowAt(s, t, n - 1, t, paint, j);
    NextRowStart(n, t);
    if i < n - 1 {
      ThickRowsAt(s, t, n - 1, paint, i, j);
    } else {
      assert i * t + j == |prev| + j;
    }
  }

  lemma NextRowStart(n: int, t: int)
    ensures (n - 1) * t + t == n * t
  {
  }

  lemma LinesOnlyAppend(a: seq<DrawCmd>, b: seq<DrawCmd>, paint: Paint)
    requires LinesOnly(a, paint) && LinesOnly(b, paint)
    ensures LinesOnly(a + b, paint)
  {
  }

  lemma {:induction false} ThickRowLinesOnly(s: Segment, t: int, i: int, n: nat, paint: Paint)
    requires t > 0
    ensures LinesOnly(ThickRow(s, t, i, n, paint), paint)
  {
    if n > 0 {
      ThickRowLinesOnly(s, t, i, n - 1, paint);
      LinesOnlyAppend(ThickRow(s, t, i, n - 1, paint), [ShiftedLine(s, i - t / 2, (n - 1) - t / 2, paint)], paint);
    }
  }

  lemma {:induction false} ThickRowsLinesOnly(s: Segment, t: int, n: nat, paint: Paint)
    requires t > 0
    ensures LinesOnly(ThickRows(s, t, n, paint), paint)
  {
    if n > 0 {
      ThickRowsLinesOnly(s, t, n - 1, paint);
      ThickRowLinesOnly(s, t, n - 1, t, paint);
      LinesOnlyAppend(ThickRows(s, t, n - 1, paint), ThickRow(s, t, n - 1, t, paint), paint);
    }
  }

  /**
   * A thick line of thickness t > 0 is exactly t * t lines in its own paint,
   * the one drawn in iteration (i, j) being the segment shifted by
   * (i - t/2, j - t/2); thickness 0 or less draws nothing.
   */
  lemma ThickLineShape(s: Segment, t: int, paint: Paint, i: int, j: int)
    requires 0 <= i < t && 0 <= j < t
    ensures |ThickLine(s, t, paint)| == t * t
    ensures LinesOnly(ThickLine(s, t, paint), paint)
    ensures i * t + j < t * t
    ensures ThickLine(s, t, paint)[i * t + j] == ShiftedLine(s, i - t / 2, j - t / 2, paint)
  {
    ThickRowsLength(s, t, t, paint);
    ThickRowsLinesOnly(s, t, t, paint);
    ThickRowsAt(s, t, t, paint, i, j);
  }

  lemma ThickLineLinesOnly(s: Segment, t: int, paint: Paint)
    ensures LinesOnly(ThickLine(s, t, paint), paint)
    ensures t <= 0 ==> ThickLine(s, t, paint) == []
    ensures t > 0 ==> |ThickLine(s, t, paint)| == t * t
  {
    if t > 0 {
      ThickLineShape(s, t, paint, 0, 0);
    }
  }

  // ---------------------------------------------------------------------
  // Paths of thick segments (the curve and the zig-zag mouth).

  /** Each segment of `path` in turn drawn as a thick line. */
  function ThickPath(path: seq<Segment>, t: int, paint: Paint): seq<DrawCmd> {
    if path == [] then []
    else ThickPath(path[..|path| - 1], t, paint) + ThickLine(path[|path| - 1], t, paint)
  }

  lemma {:induction false} ThickPathShape(path: seq<Segment>, t: int, paint: Paint)
    ensures LinesOnly(ThickPath(path, t, paint), paint)
    ensures t > 0 ==> |ThickPath(path, t, paint)| == |path| * (t * t)
  {
    if path != [] {
      ThickPathShape(path[..|path| - 1], t, paint);
      ThickLineLinesOnly(path[|path| - 1], t, paint);
      if t > 0 {
        assert (|path| - 1) * (t * t) + t * t == |path| * (t * t);
      }
    }
  }

  /**
   * One more segment drawn after the first `i`: the commands sent so far
   * extend to those of the first `i + 1` segments.
   */
  lemma ThickPathExtend(start: seq<DrawCmd>, pre: seq<DrawCmd>, post: seq<DrawCmd>,
                        path: seq<Segment>, i: nat, t: int, paint: Paint)
    requires i < |path|
    requires pre == start + ThickPath(path[..i], t, paint)
    requires post == pre + ThickLine(path[i], t, paint)
    ensures post == start + ThickPath(path[..i + 1], t, paint)
  {
    ThickPathStep(path, i, t, paint);
    ConcatAssoc(start, ThickPath(path[..i], t, paint), ThickLine(path[i], t, paint));
  }

  lemma ConcatAssoc<T>(a: seq<T>, b: seq<T>, c: seq<T>)
    ensures a + b + c == a + (b + c)
  {
  }

  /** Six pieces appended one after another make their concatenation. */
  lemma AppendSix<T>(c0: seq<T>, c1: seq<T>, c2: seq<T>, c3: seq<T>, c4: seq<T>, c5: seq<T>, c6: seq<T>,
                     p1: seq<T>, p2: seq<T>, p3: seq<T>, p4: seq<T>, p5: seq<T>, p6: seq<T>)
    requires c1 == c0 + p1 && c2 == c1 + p2 && c3 == c2 + p3
    requires c4 == c3 + p4 && c5 == c4 + p5 && c6 == c5 + p6
    ensures c6 == c0 + (p1 + p2 + p3 + p4 + p5 + p6)
  {
  }

  /** Drawing segment `i` of `path` after the first `i` extends the drawing to the first i + 1. */
  lemma ThickPathStep(path: seq<Segment>, i: nat, t: int, paint: Paint)
    requires i < |path|
    ensures ThickPath(path[..i + 1], t, paint) == ThickPath(path[..i], t, paint) + ThickLine(path[i], t, paint)
  {
    assert path[..i + 1][..i] == path[..i];
  }

  // ---------------------------------------------------------------------
  // drawCurve

  /**
   * The rise of the parabola above (or below) the centre line at horizontal
   * offset `dx`: `(int)(height * (1 - t * t))` with `t = (float)dx / half`.
   * The source computes it in single-precision floating point; the model
   * takes it as a given function of (dx, half, height).
   */
  type CurveRise = (int, int, int) -> int

  const CurveSegmentCount := 20

  /** The y of the curve at x, as `drawCurve` computes it. */
  function CurveY(cx: int, cy: int, x: int, half: int, height: int, upward: bool, rise: CurveRise): int {
    cy + (if upward then 1 else -1) * rise(x - cx, half, height)
  }

  /** The x at which segment `i` of a curve starts. */
  function CurveX(cx: int, width: int, i: int): int {
    cx - Quot(width, 2) + i * Quot(width, CurveSegmentCount)
  }

  /** Segment `i` of a curve: from the curve point at its start x to the one at its end x. */
  function CurveSegment(cx: int, cy: int, width: int, height: int, upward: bool, rise: CurveRise, i: int): Segment {
    Segment(CurveX(cx, width, i), CurveY(cx, cy, CurveX(cx, width, i), Quot(width, 2), height, upward, rise),
            CurveX(cx, width, i + 1), CurveY(cx, cy, CurveX(cx, width, i + 1), Quot(width, 2), height, upward, rise))
  }

  /** Segment `i` of the curve joins the curve points at the two x positions `drawCurve` computes for it. */
  lemma CurvePathAt(cx: int, cy: int, width: int, height: int, upward: bool, rise: CurveRise, i: int, x1: int, x2: int)
    requires 0 <= i < CurveSegmentCount
    requires x1 == cx - Quot(width, 2) + i * Quot(width, CurveSegmentCount)
    requires x2 == cx - Quot(width, 2) + (i + 1) * Quot(width, CurveSegmentCount)
    ensures CurvePath(cx, cy, width, height, upward, rise)[i]
      == Segment(x1, CurveY(cx, cy, x1, Quot(width, 2), height, upward, rise),
                 x2, CurveY(cx, cy, x2, Quot(width, 2), height, upward, rise))
  {
  }

  /** The twenty segments `drawCurve(cx, cy, width, height, color, upward)` draws. */
  function CurvePath(cx: int, cy: int, width: int, height: int, upward: bool, rise: CurveRise): seq<Segment> {
    seq(CurveSegmentCount, i => CurveSegment(cx, cy, width, height, upward, rise, i))
  }

  /** `drawCurve`: every segment drawn three pixels thick. */
  function CurveCmds(cx: int, cy: int, width: int, height: int, paint: Paint, upward: bool, rise: CurveRise): seq<DrawCmd> {
    ThickPath(CurvePath(cx, cy, width, height, upward, rise), 3, paint)
  }

  /**
   * A curve is twenty joined segments of equal width `width / 20` starting
   * at `cx - width / 2`; it is drawn with 20 * 9 lines.
   */
  lemma CurveShape(cx: int, cy: int, width: int, height: int, paint: Paint, upward: bool, rise: CurveRise)
    ensures var path := CurvePath(cx, cy, width, height, upward, rise);
      && |path| == 20
      && path[0].x1 == cx - Quot(width, 2)
      && (forall i :: 0 <= i < 20 ==> path[i].x2 - path[i].x1 == Quot(width, 20))
      && (forall i :: 0 <= i < 19 ==> path[i].x2 == path[i + 1].x1 && path[i].y2 == path[i + 1].y1)
    ensures |CurveCmds(cx, cy, width, height, paint, upward, rise)| == 180
    ensures LinesOnly(CurveCmds(cx, cy, width, height, paint, upward, rise), paint)
  {
    ThickPathShape(CurvePath(cx, cy, width, height, upward, rise), 3, paint);
  }

  // ---------------------------------------------------------------------
  // Mouths

  /** `drawHappyMouth`: a 60-wide, 20-high curve. */
  function HappyMouthCmds(cx: int, cy: int, rise: CurveRise): seq<DrawCmd> {
    CurveCmds(cx, cy, MouthWidth, MouthHeight, Solid(Black), true, rise)
  }

  /** `drawSurprisedMouth`: a black oval with a teal inset. */
  function SurprisedMouthCmds(cx: int, cy: int): seq<DrawCmd> {
    [FillEllipse(cx, cy, 15, 20, Solid(Black)), FillEllipse(cx, cy, 10, 15, Solid(Teal))]
  }

  /** `drawSleepyMouth`: one 40-wide horizontal line, three pixels thick. */
  function SleepyMouthCmds(cx: int, cy: int): seq<DrawCmd> {
    ThickLine(Segment(cx - 20, cy, cx + 20, cy), 3, Solid(Black))
  }

  /** The first `n` teeth of the excited mouth. */
  function Teeth(cx: int, cy: int, n: nat): seq<DrawCmd> {
    seq(n, i => FillRect(cx - 20 + i * 13, cy + 8, 3, 8, Solid(White)))
  }

  /** `drawExcitedMouth`: an 80-wide, 30-high curve and four teeth. */
  function ExcitedMouthCmds(cx: int, cy: int, rise: CurveRise): seq<DrawCmd> {
    CurveCmds(cx, cy, MouthWidth + 20, MouthHeight + 10, Solid(Black), true, rise) + Teeth(cx, cy, 4)
  }

  const ZigZagSegments := 8

  /** Segment `i` of the zig-zag: even segments fall from 5 above the centre line, odd ones rise. */
  function ZigZagSegment(cx: int, cy: int, i: int): Segment {
    var x1 := cx - MouthWidth / 2 + i * (MouthWidth / ZigZagSegments);
    Segment(x1, cy + (if i % 2 == 0 then -5 else 5),
            x1 + MouthWidth / ZigZagSegments, cy + (if i % 2 == 0 then 5 else -5))
  }

  /** The eight segments of `drawConfusedMouth`. */
  function ZigZagPath(cx: int, cy: int): seq<Segment> {
    seq(ZigZagSegments, i => ZigZagSegment(cx, cy, i))
  }

  /** `drawConfusedMouth`: the zig-zag drawn two pixels thick. */
  function ConfusedMouthCmds(cx: int, cy: int): seq<DrawCmd> {
    ThickPath(ZigZagPath(cx, cy), 2, Solid(Black))
  }

  /** `drawMouth(expression)`, centred at (120, 190); an undeclared code draws the happy mouth. */
  function MouthCmds(expression: int, rise: CurveRise): seq<DrawCmd> {
    var cx, cy := FaceCenterX, FaceCenterY + MouthYOffset;
    match ExpressionOf(expression)
    case Some(Happy) => HappyMouthCmds(cx, cy, rise)
    case Some(Surprised) => SurprisedMouthCmds(cx, cy)
    case Some(Sleepy) => SleepyMouthCmds(cx, cy)
    case Some(Excited) => ExcitedMouthCmds(cx, cy, rise)
    case Some(Confused) => ConfusedMouthCmds(cx, cy)
    case None => HappyMouthCmds(cx, cy, rise)
  }

  // ---------------------------------------------------------------------
  // Eyes

  /** `drawEyeHighlight`: two white dots up and to the left of the centre. */
  function EyeHighlightCmds(cx: int, cy: int): seq<DrawCmd> {
    [FillCircle(cx - 8, cy - 8, 6, Solid(White)), FillCircle(cx - 5, cy - 12, 2, Solid(White))]
  }

  /** `drawSmoothCircle` (through `drawAntiAliasedCircle`): a disc and a darker outline. */
  function SmoothCircleCmds(cx: int, cy: int, r: int, color: bv16): seq<DrawCmd> {
    [FillCircle(cx, cy, r, Solid(color)), DrawCircle(cx, cy, r, Darkened(color))]
  }

  const ClosedEyeThickness := 4

  /** The first `n` lines of a closed eye of half-width `half`. */
  function ClosedEyeLines(cx: int, cy: int, half: int, n: nat): seq<DrawCmd> {
    seq(n, i => DrawLine(cx - half, cy + i - ClosedEyeThickness / 2, cx + half, cy + i - ClosedEyeThickness / 2, Solid(Black)))
  }

  /** `drawClosedEye(cx, cy, width)`: four horizontal lines and two round ends. */
  function ClosedEyeCmds(cx: int, cy: int, width: int): seq<DrawCmd> {
    var half := Quot(width, 2);
    ClosedEyeLines(cx, cy, half, ClosedEyeThickness)
      + [FillCircle(cx - half, cy, ClosedEyeThickness / 2, Solid(Black)),
         FillCircle(cx + half, cy, ClosedEyeThickness / 2, Solid(Black))]
  }

  /** `drawEye(cx, cy, state, isLeft)`; an undeclared state draws nothing. */
  function EyeCmds(cx: int, cy: int, state: int): seq<DrawCmd> {
    match EyeStateOf(state)
    case Some(EyesOpen) =>
      SmoothCircleCmds(cx, cy, EyeRadius, Black) + EyeHighlightCmds(cx, cy)
    case Some(EyesClosed) =>
      ClosedEyeCmds(cx, cy, EyeRadius * 2)
    case Some(EyesHalfClosed) =>
      [FillEllipse(cx, cy, EyeRadius, EyeRadius / 2, Solid(Black))] + EyeHighlightCmds(cx, cy - EyeRadius / 4)
    case Some(EyesWide) =>
      SmoothCircleCmds(cx, cy, EyeRadius + 5, Black) + EyeHighlightCmds(cx, cy)
        + [FillCircle(cx + 5, cy - 5, 3, Solid(White))]
    case None => []
  }

  /** `drawEyes(state)`: the left eye, then the right. */
  function EyesCmds(state: int): seq<DrawCmd> {
    var eyeY := FaceCenterY + EyeYOffset;
    EyeCmds(FaceCenterX - EyeSeparation / 2, eyeY, state) + EyeCmds(FaceCenterX + EyeSeparation / 2, eyeY, state)
  }

  // ---------------------------------------------------------------------
  // Background, frame, face

  /** The first `n` gradient lines of the background, four rows apart. */
  function GradientLines(n: nat): seq<DrawCmd> {
    seq(n, k => DrawFastHLine(0, 4 * k, DisplayWidth, Gradient(4 * k)))
  }

  /** `drawBackground`: a teal fill, then a full-width line every fourth row. */
  function BackgroundCmds(): seq<DrawCmd> {
    [FillScreen(Solid(Teal))] + GradientLines(DisplayHeight / 4)
  }

  const FrameThickness := 6
  const FrameCornerRadius := 12

  /** The first `n` nested rounded rectangles of the frame. */
  function FrameRings(n: nat): seq<DrawCmd> {
    seq(n, i => DrawRoundRect(i, i, DisplayWidth - i * 2, DisplayHeight - i * 2, FrameCornerRadius, Solid(DarkTeal)))
  }

  /** `drawFrame`: six dark rings and one light inner highlight. */
  function FrameCmds(): seq<DrawCmd> {
    FrameRings(FrameThickness)
      + [DrawRoundRect(FrameThickness, FrameThickness, DisplayWidth - FrameThickness * 2,
                       DisplayHeight - FrameThickness * 2, FrameCornerRadius - 2, Solid(LightTeal))]
  }

  /** What a bound `drawBMOFace(expression, eyeState)` issues. */
  function FaceCmds(expression: int, eyeState: int, rise: CurveRise): seq<DrawCmd> {
    [StartWrite] + BackgroundCmds() + FrameCmds() + EyesCmds(eyeState) + MouthCmds(expression, rise) + [EndWrite]
  }

  /** What a bound `animateBlink` issues: closed eyes, then open eyes. */
  function BlinkCmds(): seq<DrawCmd> {
    EyesCmds(EyeStateCode(EyesClosed)) + EyesCmds(EyeStateCode(EyesOpen))
  }

  // ---------------------------------------------------------------------
  // Properties of the routines

  /**
   * `drawConfusedMouth`: eight segments of width 60 / 8 = 7 from cx - 30;
   * each ends where the next starts and the ends alternate 5 above and 5
   * below the centre line. Drawn two pixels thick, that is 32 lines.
   */
  lemma ZigZagShape(cx: int, cy: int)
    ensures var path := ZigZagPath(cx, cy);
      && |path| == 8
      && path[0].x1 == cx - 30 && path[7].x2 == cx + 26
      && (forall i :: 0 <= i < 8 ==> path[i].x2 == path[i].x1 + 7)
      && (forall i :: 0 <= i < 7 ==> path[i].x2 == path[i + 1].x1 && path[i].y2 == path[i + 1].y1)
      && (forall i :: 0 <= i < 8 ==> path[i].y1 == (if i % 2 == 0 then cy - 5 else cy + 5))
      && (forall i :: 0 <= i < 8 ==> path[i].y2 == 2 * cy - path[i].y1)
    ensures |ConfusedMouthCmds(cx, cy)| == 32
    ensures LinesOnly(ConfusedMouthCmds(cx, cy), Solid(Black))
  {
    var path := ZigZagPath(cx, cy);
    forall i | 0 <= i < 8
      ensures path[i].x2 == path[i].x1 + 7
      ensures path[i].y1 == (if i % 2 == 0 then cy - 5 else cy + 5)
      ensures path[i].y2 == 2 * cy - path[i].y1
      ensures i < 7 ==> path[i].x2 == path[i + 1].x1 && path[i].y2 == path[i + 1].y1
    {
      ZigZagSegmentFacts(cx, cy, i);
    }
    ThickPathShape(path, 2, Solid(Black));
  }

  /** Segment `i` starts 7 * i right of cx - 30, and joins segment `i + 1`. */
  lemma ZigZagSegmentFacts(cx: int, cy: int, i: int)
    ensures var s, next := ZigZagSegment(cx, cy, i), ZigZagSegment(cx, cy, i + 1);
      && s.x1 == cx - 30 + 7 * i && s.x2 == s.x1 + 7
      && s.y1 == (if i % 2 == 0 then cy - 5 else cy + 5) && s.y2 == 2 * cy - s.y1
      && s.x2 == next.x1 && s.y2 == next.y1
  {
    assert (i + 1) % 2 == 1 - i % 2;
  }

  /** The excited mouth's four teeth stand 13 pixels apart from cx - 20, 8 below the centre. */
  lemma TeethPositions(cx: int, cy: int, rise: CurveRise)
    ensures var m := ExcitedMouthCmds(cx, cy, rise);
      && |m| == 184
      && forall i :: 0 <= i < 4 ==> m[180 + i] == FillRect(cx - 20 + 13 * i, cy + 8, 3, 8, Solid(White))
  {
    CurveShape(cx, cy, MouthWidth + 20, MouthHeight + 10, Solid(Black), true, rise);
  }

  /**
   * The frame is six dark rounded rectangles inset by 0 .. 5 pixels with
   * corner radius 12, then a light one inset by 6 with radius 10.
   */
  lemma FrameShape()
    ensures |FrameCmds()| == 7
    ensures forall i :: 0 <= i < 6 ==> FrameCmds()[i] == DrawRoundRect(i, i, 240 - 2 * i, 320 - 2 * i, 12, Solid(DarkTeal))
    ensures FrameCmds()[6] == DrawRoundRect(6, 6, 228, 308, 10, Solid(LightTeal))
  {
  }

  /**
   * The background is one teal fill followed by 80 full-width lines, one at
   * every row y = 0, 4, ..., 316, in increasing order.
   */
  lemma BackgroundShape()
    ensures |BackgroundCmds()| == 81
    ensures BackgroundCmds()[0] == FillScreen(Solid(Teal))
    ensures forall k :: 0 <= k < 80 ==> BackgroundCmds()[k + 1] == DrawFastHLine(0, 4 * k, 240, Gradient(4 * k))
    ensures forall y :: 0 <= y < 320 && y % 4 == 0 ==> DrawFastHLine(0, y, 240, Gradient(y)) in BackgroundCmds()
  {
    forall y | 0 <= y < 320 && y % 4 == 0
      ensures DrawFastHLine(0, y, 240, Gradient(y)) in BackgroundCmds()
    {
      assert BackgroundCmds()[y / 4 + 1] == DrawFastHLine(0, y, 240, Gradient(y));
    }
  }

  /**
   * A closed eye is four lines at y offsets -2, -1, 0 and 1 spanning
   * cx - width/2 .. cx + width/2, then a round end of radius 2 at each side.
   */
  lemma ClosedEyeShape(cx: int, cy: int, width: int)
    ensures var e, half := ClosedEyeCmds(cx, cy, width), Quot(width, 2);
      && |e| == 6
      && (forall i :: 0 <= i < 4 ==> e[i] == DrawLine(cx - half, cy + i - 2, cx + half, cy + i - 2, Solid(Black)))
      && e[4] == FillCircle(cx - half, cy, 2, Solid(Black))
      && e[5] == FillCircle(cx + half, cy, 2, Solid(Black))
  {
  }

  /** The eyes are centred at (70, 120) and (170, 120); an undeclared eye state draws no eye. */
  lemma EyePlacement(eyeState: int)
    ensures EyesCmds(eyeState) == EyeCmds(70, 120, eyeState) + EyeCmds(170, 120, eyeState)
    ensures EyeStateOf(eyeState) == None ==> EyesCmds(eyeState) == []
  {
  }

  /**
   * The mouth is centred at (120, 190), and every expression code other
   * than the four declared non-happy ones draws the happy mouth.
   */
  lemma MouthPlacement(expression: int, rise: CurveRise)
    ensures ExpressionOf(expression) == Some(Happy) || ExpressionOf(expression) == None
      ==> MouthCmds(expression, rise) == HappyMouthCmds(120, 190, rise)
    ensures ExpressionOf(expression) == Some(Surprised) ==> MouthCmds(expression, rise) == SurprisedMouthCmds(120, 190)
    ensures ExpressionOf(expression) == Some(Sleepy) ==> MouthCmds(expression, rise) == SleepyMouthCmds(120, 190)
    ensures ExpressionOf(expression) == Some(Excited) ==> MouthCmds(expression, rise) == ExcitedMouthCmds(120, 190, rise)
    ensures ExpressionOf(expression) == Some(Confused) ==> MouthCmds(expression, rise) == ConfusedMouthCmds(120, 190)
  {
  }

  /** A blink draws both eyes closed (two 50-wide closed eyes), then both open, and never brackets. */
  lemma BlinkShape()
    ensures BlinkCmds() == ClosedEyeCmds(70, 120, 50) + ClosedEyeCmds(170, 120, 50) + EyesCmds(EyeStateCode(EyesOpen))
    ensures |BlinkCmds()| == 20
    ensures Unbracketed(BlinkCmds())
  {
    EyesUnbracketed(EyeStateCode(EyesClosed));
    EyesUnbracketed(EyeStateCode(EyesOpen));
    UnbracketedAppend(EyesCmds(EyeStateCode(EyesClosed)), EyesCmds(EyeStateCode(EyesOpen)));
    OpenEyes();
  }

  /** Open eyes: a black disc of radius 25 with its outline and two highlights, left eye first. */
  lemma OpenEyes()
    ensures EyesCmds(EyeStateCode(EyesOpen)) ==
      [FillCircle(70, 120, 25, Solid(Black)), DrawCircle(70, 120, 25, Darkened(Black)),
       FillCircle(62, 112, 6, Solid(White)), FillCircle(65, 108, 2, Solid(White)),
       FillCircle(170, 120, 25, Solid(Black)), DrawCircle(170, 120, 25, Darkened(Black)),
       FillCircle(162, 112, 6, Solid(White)), FillCircle(165, 108, 2, Solid(White))]
  {
  }

  lemma EyeUnbracketed(cx: int, cy: int, state: int)
    ensures Unbracketed(EyeCmds(cx, cy, state))
  {
    match EyeStateOf(state)
    case Some(EyesClosed) =>
      assert LinesOnly(ClosedEyeLines(cx, cy, Quot(EyeRadius * 2, 2), ClosedEyeThickness), Solid(Black));
    case _ =>
  }

  lemma EyesUnbracketed(state: int)
    ensures Unbracketed(EyesCmds(state))
  {
    var left, right := EyeCmds(70, 120, state), EyeCmds(170, 120, state);
    EyeUnbracketed(70, 120, state);
    EyeUnbracketed(170, 120, state);
    UnbracketedAppend(left, right);
    assert EyesCmds(state) == left + right;
  }

  lemma UnbracketedAppend(a: seq<DrawCmd>, b: seq<DrawCmd>)
    requires Unbracketed(a) && Unbracketed(b)
    ensures Unbracketed(a + b)
  {
  }

  lemma LinesAreUnbracketed(cmds: seq<DrawCmd>, paint: Paint)
    requires LinesOnly(cmds, paint)
    ensures Unbracketed(cmds)
  {
  }

  lemma {:induction false} MouthUnbracketed(expression: int, rise: CurveRise)
    ensures Unbracketed(MouthCmds(expression, rise))
  {
    var cx, cy := FaceCenterX, FaceCenterY + MouthYOffset;
    match ExpressionOf(expression)
    case Some(Surprised) =>
    case Some(Sleepy) =>
      ThickLineLinesOnly(Segment(cx - 20, cy, cx + 20, cy), 3, Solid(Black));
      LinesAreUnbracketed(SleepyMouthCmds(cx, cy), Solid(Black));
    case Some(Excited) =>
      CurveShape(cx, cy, MouthWidth + 20, MouthHeight + 10, Solid(Black), true, rise);
      LinesAreUnbracketed(CurveCmds(cx, cy, MouthWidth + 20, MouthHeight + 10, Solid(Black), true, rise), Solid(Black));
    case Some(Confused) =>
      ZigZagShape(cx, cy);
      LinesAreUnbracketed(ConfusedMouthCmds(cx, cy), Solid(Black));
    case _ =>
      CurveShape(cx, cy, MouthWidth, MouthHeight, Solid(Black), true, rise);
      LinesAreUnbracketed(HappyMouthCmds(cx, cy, rise), Solid(Black));
  }

  /**
   * A face is drawn inside exactly one batched-write scope: the first call
   * opens it, the last closes it, and no call in between opens or closes one;
   * in between come the background, the frame, the eyes and the mouth.
   */
  lemma FaceBracketing(expression: int, eyeState: int, rise: CurveRise)
    ensures var f := FaceCmds(expression, eyeState, rise);
      && |f| >= 2 && f[0] == StartWrite && f[|f| - 1] == EndWrite
      && f[1..|f| - 1] == BackgroundCmds() + FrameCmds() + EyesCmds(eyeState) + MouthCmds(expression, rise)
      && Unbracketed(f[1..|f| - 1])
  {
    BackgroundUnbracketed();
    FrameUnbracketed();
    EyesUnbracketed(eyeState);
    MouthUnbracketed(expression, rise);
    BracketedBody(BackgroundCmds(), FrameCmds(), EyesCmds(eyeState), MouthCmds(expression, rise));
  }

  /** Four unbracketed parts between one opening and one closing call. */
  lemma BracketedBody(a: seq<DrawCmd>, b: seq<DrawCmd>, c: seq<DrawCmd>, d: seq<DrawCmd>)
    requires Unbracketed(a) && Unbracketed(b) && Unbracketed(c) && Unbracketed(d)
    ensures var f := [StartWrite] + a + b + c + d + [EndWrite];
      && |f| >= 2 && f[0] == StartWrite && f[|f| - 1] == EndWrite
      && f[1..|f| - 1] == a + b + c + d && Unbracketed(f[1..|f| - 1])
  {
    UnbracketedAppend(a, b);
    UnbracketedAppend(a + b, c);
    UnbracketedAppend(a + b + c, d);
    Enclosed(StartWrite, a + b + c + d, EndWrite);
    ConcatAssoc([StartWrite], a + b + c, d);
    ConcatAssoc([StartWrite], a + b, c);
    ConcatAssoc([StartWrite], a, b);
  }

  lemma BackgroundUnbracketed()
    ensures Unbracketed(BackgroundCmds())
  {
    assert forall k :: 0 <= k < DisplayHeight / 4 ==> GradientLines(DisplayHeight / 4)[k].DrawFastHLine?;
  }

  lemma FrameUnbracketed()
    ensures Unbracketed(FrameCmds())
  {
    assert forall i :: 0 <= i < FrameThickness ==> FrameRings(FrameThickness)[i].DrawRoundRect?;
  }

  /** The inside of `[first] + body + [last]` is `body`. */
  lemma Enclosed<T>(first: T, body: seq<T>, last: T)
    ensures var f := [first] + body + [last];
      |f| == |body| + 2 && f[0] == first && f[|f| - 1] == last && f[1..|f| - 1] == body
  {
    var f := [first] + body + [last];
    assert f[1..|f| - 1] == body;
  }
}
