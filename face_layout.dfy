/**
 * The face layout constants and the two enumerations of graphics.h, with the
 * panel size of display.h.
 *
 * C passes an enumeration as a plain `int`, so a routine can receive a value
 * outside the declared list; the renderer therefore stores and dispatches on
 * the integer code, and `ExpressionOf` / `EyeStateOf` say which codes name a
 * declared value.
 */
module FaceLayout {
  import opened Wrappers

  const DisplayWidth := 240
  const DisplayHeight := 320

  const FaceCenterX := 120
  const FaceCenterY := 160
  const EyeRadius := 25
  const EyeSeparation := 100
  const EyeYOffset := -40
  const MouthYOffset := 30
  const MouthWidth := 60
  const MouthHeight := 20

  const BlinkDurationMs := 150
  const ExpressionFadeMs := 300

  datatype Expression = Happy | Surprised | Sleepy | Excited | Confused
  datatype EyeState = EyesOpen | EyesClosed | EyesHalfClosed | EyesWide

  /** `EXPRESSION_COUNT`: the code that follows the last declared expression. */
  const ExpressionCount := 5

  /** The value C gives each declared expression. */
  function ExpressionCode(e: Expression): int {
    match e
    case Happy => 0
    case Surprised => 1
    case Sleepy => 2
    case Excited => 3
    case Confused => 4
  }

  /** The declared expression a code names, if any. */
  function ExpressionOf(code: int): (e: Option<Expression>)
    ensures e.Some? <==> 0 <= code < ExpressionCount
    ensures e.Some? ==> ExpressionCode(e.value) == code
  {
    if code == 0 then Some(Happy)
    else if code == 1 then Some(Surprised)
    else if code == 2 then Some(Sleepy)
    else if code == 3 then Some(Excited)
    else if code == 4 then Some(Confused)
    else None
  }

  /** The value C gives each declared eye state. */
  function EyeStateCode(s: EyeState): int {
    match s
    case EyesOpen => 0
    case EyesClosed => 1
    case EyesHalfClosed => 2
    case EyesWide => 3
  }

  /** The declared eye state a code names, if any. */
  function EyeStateOf(code: int): (s: Option<EyeState>)
    ensures s.Some? <==> 0 <= code < 4
    ensures s.Some? ==> EyeStateCode(s.value) == code
  {
    if code == 0 then Some(EyesOpen)
    else if code == 1 then Some(EyesClosed)
    else if code == 2 then Some(EyesHalfClosed)
    else if code == 3 then Some(EyesWide)
    else None
  }

  /**
   * The codes are a bijection between the declared values and 0 .. count-1:
   * `EXPRESSION_COUNT` is the number of expressions and the four eye states
   * are 0 .. 3.
   */
  lemma CodesRoundTrip(e: Expression, s: EyeState)
    ensures 0 <= ExpressionCode(e) < ExpressionCount && ExpressionOf(ExpressionCode(e)) == Some(e)
    ensures 0 <= EyeStateCode(s) < 4 && EyeStateOf(EyeStateCode(s)) == Some(s)
  {
  }

  /** Distinct declared values have distinct codes. */
  lemma CodesInjective(e1: Expression, e2: Expression, s1: EyeState, s2: EyeState)
    ensures ExpressionCode(e1) == ExpressionCode(e2) ==> e1 == e2
    ensures EyeStateCode(s1) == EyeStateCode(s2) ==> s1 == s2
  {
  }
}
