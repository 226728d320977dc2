/**
 * The pure geometry of the flyout: the direction table that decides the
 * slide axis and offset, the placement of the host window in the work area,
 * the storyboards chosen for opening and closing, and the track layout of the
 * islands grid. WPF's double-valued sizes are modelled as integers.
 */
module FlyoutLayout {

  import opened TransitionHelpers

  /** The side the flyout slides in from. */
  datatype PopupDirection = Up | Down | Right | Left

  /** Where the host window goes: a corner of the work area or a fixed point. */
  datatype PlacementMode = TopLeft | TopRight | BottomLeft | BottomRight | Custom

  datatype Orientation = Horizontal | Vertical

  datatype Size = Size(width: nat, height: nat)

  datatype Point = Point(x: int, y: int)

  /** A screen rectangle (the work area of the primary screen). */
  datatype Rect = Rect(left: int, top: int, width: nat, height: nat)
  {
    function Right(): int { left + width }
    function Bottom(): int { top + height }
  }

  /** The host window: whether it is shown, and its bounds. */
  datatype HostWindow = HostWindow(visible: bool, left: int, top: int, width: int, height: int)

  /** The axis of the slide and the signed offset the surface starts from. */
  datatype TransformInfo = TransformInfo(orientation: Orientation, offset: int)

  /** The grid track kinds used by the islands grid. */
  datatype GridLength = Auto | Pixel(n: nat)

  /** The gap between two neighbouring islands. */
  const IslandGap: nat := 12

  // ---------------------------------------------------------------------------
  // The direction table

  /**
   * The slide axis follows the direction; the offset is the flyout's extent
   * along that axis, positive for Up and Left (the surface starts below or to
   * the right of its resting place) and negative for Down and Right.
   */
  function GetTranslateTransformInfo(direction: PopupDirection, desired: Size): (info: TransformInfo)
    ensures info.orientation == Vertical <==> direction.Up? || direction.Down?
    ensures info.orientation == Vertical ==> info.offset == desired.height || info.offset == -(desired.height as int)
    ensures info.orientation == Horizontal ==> info.offset == desired.width || info.offset == -(desired.width as int)
    ensures direction.Up? || direction.Left? ==> info.offset >= 0
    ensures direction.Down? || direction.Right? ==> info.offset <= 0
  {
    match direction
    case Up => TransformInfo(Vertical, desired.height)
    case Down => TransformInfo(Vertical, -(desired.height as int))
    case Right => TransformInfo(Horizontal, -(desired.width as int))
    case Left => TransformInfo(Horizontal, desired.width)
  }

  /** Opposite directions slide along the same axis by opposite offsets. */
  lemma OppositeDirectionsMirror(desired: Size)
    ensures GetTranslateTransformInfo(Up, desired).orientation == GetTranslateTransformInfo(Down, desired).orientation
    ensures GetTranslateTransformInfo(Up, desired).offset == -GetTranslateTransformInfo(Down, desired).offset
    ensures GetTranslateTransformInfo(Left, desired).orientation == GetTranslateTransformInfo(Right, desired).orientation
    ensures GetTranslateTransformInfo(Left, desired).offset == -GetTranslateTransformInfo(Right, desired).offset
  {
  }

  /** The translate transform before an animated show: the offset on the slide axis, 0 on the other. */
  function PrePositioned(info: TransformInfo): (xy: (int, int))
    ensures info.orientation == Vertical ==> xy.0 == 0
    ensures info.orientation == Horizontal ==> xy.1 == 0
    ensures xy.0 + xy.1 == info.offset
  {
    if info.orientation == Vertical then (0, info.offset) else (info.offset, 0)
  }

  /** The property a storyboard for this axis animates. */
  function AxisOf(o: Orientation): TranslateAxis
  {
    if o == Vertical then TranslateY else TranslateX
  }

  /** The opening storyboard: from the offset back to rest. */
  function ShowStoryboard(info: TransformInfo): (s: Storyboard)
    ensures |s.children| == 1 && |s.children[0].keyFrames| == 2
  {
    if info.orientation == Vertical then GetWindows11BottomToTopTransitionStoryboard(info.offset, 0)
    else GetWindows11RightToLeftTransitionStoryboard(info.offset, 0)
  }

  /** The closing storyboard: from rest out to the offset. */
  function HideStoryboard(info: TransformInfo): (s: Storyboard)
    ensures |s.children| == 1 && |s.children[0].keyFrames| == 2
  {
    if info.orientation == Vertical then GetWindows11TopToBottomTransitionStoryboard(0, info.offset)
    else GetWindows11LeftToRightTransitionStoryboard(0, info.offset)
  }

  /** The start value of a slide storyboard. */
  function StartValue(s: Storyboard): int
    requires |s.children| == 1 && |s.children[0].keyFrames| > 0
  {
    s.children[0].keyFrames[0].value
  }

  /**
   * The opening storyboard drives the slide axis from exactly where the surface
   * was pre-positioned to rest, with the reveal curve; the closing storyboard
   * drives the same axis from rest back out to the same offset, with the
   * conceal curve. Closing after opening therefore returns the surface to
   * where the show started.
   */
  lemma StoryboardsMirror(info: TransformInfo)
    ensures var opening := ShowStoryboard(info);
            var pre := PrePositioned(info);
            && TargetOf(opening) == AxisOf(info.orientation)
            && StartValue(opening) == (if info.orientation == Vertical then pre.1 else pre.0)
            && FinalValue(opening) == 0
            && opening.children[0].keyFrames[1].spline == Reveal
    ensures var opening := ShowStoryboard(info);
            var closing := HideStoryboard(info);
            && TargetOf(closing) == TargetOf(opening)
            && StartValue(closing) == FinalValue(opening)
            && FinalValue(closing) == StartValue(opening)
            && closing.children[0].keyFrames[1].spline == Conceal
  {
  }

  // ---------------------------------------------------------------------------
  // Placement

  /**
   * The bounds of the host for a placement: a corner placement puts the
   * matching corner of the flyout on the same corner of the work area, Custom
   * puts its top-left corner on the custom location; the size is the desired
   * size in every case.
   */
  function FlyoutRegion(placement: PlacementMode, workArea: Rect, desired: Size, custom: Point): (r: Rect)
    ensures r.width == desired.width && r.height == desired.height
    ensures placement.TopLeft? || placement.BottomLeft? ==> r.left == workArea.left
    ensures placement.TopRight? || placement.BottomRight? ==> r.Right() == workArea.Right()
    ensures placement.TopLeft? || placement.TopRight? ==> r.top == workArea.top
    ensures placement.BottomLeft? || placement.BottomRight? ==> r.Bottom() == workArea.Bottom()
    ensures placement.Custom? ==> r.left == custom.x && r.top == custom.y
  {
    var (left, top) :=
      match placement
      case TopLeft => (workArea.left, workArea.top)
      case TopRight => (workArea.Right() - desired.width, workArea.top)
      case BottomLeft => (workArea.left, workArea.Bottom() - desired.height)
      case BottomRight => (workArea.Right() - desired.width, workArea.Bottom() - desired.height)
      case Custom => (custom.x, custom.y);
    Rect(left, top, desired.width, desired.height)
  }

  predicate Within(inner: Rect, outer: Rect)
  {
    outer.left <= inner.left && inner.Right() <= outer.Right() &&
    outer.top <= inner.top && inner.Bottom() <= outer.Bottom()
  }

  /** A flyout no larger than the work area, placed at a corner, lies inside the work area. */
  lemma CornerPlacementWithinWorkArea(placement: PlacementMode, workArea: Rect, desired: Size, custom: Point)
    requires !placement.Custom?
    requires desired.width <= workArea.width && desired.height <= workArea.height
    ensures Within(FlyoutRegion(placement, workArea, desired, custom), workArea)
  {
  }

  /** A custom placement does not depend on the work area, a corner placement not on the custom location. */
  lemma PlacementIndependence(placement: PlacementMode, a: Rect, b: Rect, desired: Size, p: Point, q: Point)
    ensures placement.Custom? ==> FlyoutRegion(placement, a, desired, p) == FlyoutRegion(placement, b, desired, p)
    ensures !placement.Custom? ==> FlyoutRegion(placement, a, desired, p) == FlyoutRegion(placement, a, desired, q)
  {
  }

  /** The host after UpdateFlyoutRegion: moved and sized, shown or hidden as before. */
  function PlaceHost(h: HostWindow, region: Rect): HostWindow
  {
    HostWindow(h.visible, region.left, region.top, region.width, region.height)
  }

  // ---------------------------------------------------------------------------
  // The islands grid

  /**
   * The tracks of the islands grid for `n` islands: one Auto track per
   * island, with a 12-unit gap track between two neighbours and none at the
   * ends, so island i owns track 2i.
   */
  function LayoutTracks(n: nat): (tracks: seq<GridLength>)
    ensures |tracks| == (if n == 0 then 0 else 2 * n - 1)
    ensures forall t :: 0 <= t < |tracks| ==> tracks[t] == (if t % 2 == 0 then Auto else Pixel(IslandGap))
  {
    if n == 0 then []
    else if n == 1 then [Auto]
    else LayoutTracks(n - 1) + [Pixel(IslandGap), Auto]
  }

  /** The row and column of the i-th island. */
  function IslandCell(orientation: Orientation, i: nat): (nat, nat)
  {
    if orientation == Vertical then (2 * i, 0) else (0, 2 * i)
  }

  /**
   * Every island's cell is an Auto track of the grid, and two islands never
   * share a cell, nor do they touch: a gap track separates neighbours.
   */
  lemma IslandCellsAreSeparateAutoTracks(orientation: Orientation, n: nat, i: nat, j: nat)
    requires i < j < n
    ensures var tracks := LayoutTracks(n);
            var ci := IslandCell(orientation, i);
            var cj := IslandCell(orientation, j);
            var ti := if orientation == Vertical then ci.0 else ci.1;
            var tj := if orientation == Vertical then cj.0 else cj.1;
            && ti < tj < |tracks|
            && tracks[ti] == Auto && tracks[tj] == Auto
            && tracks[ti + 1] == Pixel(IslandGap)
            && ci != cj
  {
  }
}
