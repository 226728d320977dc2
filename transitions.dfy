/**
 * The four slide transitions of the flyout, as descriptors: each storyboard
 * holds one key-frame animation of one translate coordinate, with a discrete
 * key frame at 0 ms and a spline key frame at the end time.
 */
module TransitionHelpers {

  /** The animated property: `(UIElement.RenderTransform).(TranslateTransform.X)` or `.Y`. */
  datatype TranslateAxis = TranslateX | TranslateY

  /**
   * The two key splines: Reveal is control points (0.1, 0.9) and (0.4, 1.0),
   * a sharp deceleration; Conceal is (0.2, 0.0) and (0.9, 0.0), an acceleration.
   */
  datatype KeySpline = Reveal | Conceal

  datatype KeyFrame =
    | DiscreteKeyFrame(timeMs: nat, value: int)
    | SplineKeyFrame(timeMs: nat, value: int, spline: KeySpline)

  datatype KeyFrameAnimation = KeyFrameAnimation(target: TranslateAxis, keyFrames: seq<KeyFrame>)

  datatype Storyboard = Storyboard(children: seq<KeyFrameAnimation>)

  const BottomToTopMs: nat := 267
  const TopToBottomMs: nat := 200
  const HorizontalMs: nat := 167

  /**
   * A storyboard that moves `axis` from `from` (held at 0 ms) to `to`
   * (reached at `endMs` along `spline`), and does nothing else.
   */
  predicate IsSlide(s: Storyboard, axis: TranslateAxis, from: int, to: int, endMs: nat, spline: KeySpline)
  {
    && |s.children| == 1
    && s.children[0].target == axis
    && |s.children[0].keyFrames| == 2
    && s.children[0].keyFrames[0] == DiscreteKeyFrame(0, from)
    && s.children[0].keyFrames[1] == SplineKeyFrame(endMs, to, spline)
  }

  function Slide(axis: TranslateAxis, from: int, to: int, endMs: nat, spline: KeySpline): Storyboard
  {
    Storyboard([KeyFrameAnimation(axis, [DiscreteKeyFrame(0, from), SplineKeyFrame(endMs, to, spline)])])
  }

  function GetWindows11BottomToTopTransitionStoryboard(from: int, to: int): (s: Storyboard)
    ensures IsSlide(s, TranslateY, from, to, BottomToTopMs, Reveal)
  {
    Slide(TranslateY, from, to, BottomToTopMs, Reveal)
  }

  function GetWindows11TopToBottomTransitionStoryboard(from: int, to: int): (s: Storyboard)
    ensures IsSlide(s, TranslateY, from, to, TopToBottomMs, Conceal)
  {
    Slide(TranslateY, from, to, TopToBottomMs, Conceal)
  }

  function GetWindows11RightToLeftTransitionStoryboard(from: int, to: int): (s: Storyboard)
    ensures IsSlide(s, TranslateX, from, to, HorizontalMs, Reveal)
  {
    Slide(TranslateX, from, to, HorizontalMs, Reveal)
  }

  function GetWindows11LeftToRightTransitionStoryboard(from: int, to: int): (s: Storyboard)
    ensures IsSlide(s, TranslateX, from, to, HorizontalMs, Conceal)
  {
    Slide(TranslateX, from, to, HorizontalMs, Conceal)
  }

  /** The property a single-animation storyboard drives. */
  function TargetOf(s: Storyboard): TranslateAxis
    requires |s.children| == 1
  {
    s.children[0].target
  }

  /** The value the animated property holds once the storyboard has completed. */
  function FinalValue(s: Storyboard): int
    requires |s.children| == 1 && |s.children[0].keyFrames| > 0
  {
    var frames := s.children[0].keyFrames;
    frames[|frames| - 1].value
  }

  /** The time of the storyboard's last key frame. */
  function DurationMs(s: Storyboard): nat
    requires |s.children| == 1 && |s.children[0].keyFrames| > 0
  {
    var frames := s.children[0].keyFrames;
    frames[|frames| - 1].timeMs
  }

  /**
   * The opening pair (bottom-to-top, right-to-left) shares the Reveal spline,
   * the closing pair (top-to-bottom, left-to-right) the Conceal spline; the
   * horizontal pair takes one time both ways, the vertical reveal is slower
   * than the vertical conceal.
   */
  lemma TransitionFamiliesConsistent(from: int, to: int)
    ensures var up := GetWindows11BottomToTopTransitionStoryboard(from, to);
            var down := GetWindows11TopToBottomTransitionStoryboard(from, to);
            var left := GetWindows11RightToLeftTransitionStoryboard(from, to);
            var right := GetWindows11LeftToRightTransitionStoryboard(from, to);
            && up.children[0].keyFrames[1].spline == left.children[0].keyFrames[1].spline == Reveal
            && down.children[0].keyFrames[1].spline == right.children[0].keyFrames[1].spline == Conceal
            && DurationMs(left) == DurationMs(right) == 167
            && DurationMs(up) == 267 && DurationMs(down) == 200
  {
  }
}
