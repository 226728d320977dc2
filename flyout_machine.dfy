/**
 * The show/hide state machine of the flyout, as a value: the host window, the
 * animation-in-flight flag, IsOpen, the direction and placement snapshotted
 * when a show starts, and the storyboard (if any) whose completion is
 * pending. Completion of a storyboard is an explicit step.
 */
module FlyoutMachine {

  import opened Wrappers
  import opened TransitionHelpers
  import opened FlyoutLayout

  /** The user-settable properties, with the defaults of the dependency properties. */
  datatype Settings = Settings(
    isBackdropEnabled: bool,
    hideOnLostFocus: bool,
    isTransitionAnimationEnabled: bool,
    popupDirection: PopupDirection,
    islandsOrientation: Orientation,
    placement: PlacementMode,
    placementLocation: Point)

  const DefaultSettings: Settings :=
    Settings(true, true, true, Up, Vertical, BottomRight, Point(0, 0))

  /** The storyboard whose Completed event is pending, by the slide it was built from. */
  datatype Transition = Idle | Opening(info: TransformInfo) | Closing(info: TransformInfo)

  datatype Machine = Machine(
    host: Option<HostWindow>,
    /** The host windows closed by Dispose, in order. */
    closedHosts: seq<HostWindow>,
    /** The control template has been applied (RootGrid and IslandsGrid exist). */
    templateApplied: bool,
    /** `_isPopupAnimationPlaying`. */
    playing: bool,
    isOpen: bool,
    lastDirection: PopupDirection,
    lastPlacement: PlacementMode,
    /** The DesiredSize measured by the last Show; placement and the reveal use it. */
    desiredSize: Size,
    /** The X and Y of the root grid's translate transform. */
    translate: (int, int),
    transition: Transition,
    settings: Settings)

  /** A new flyout attached to `host`: enum fields at their zero values, nothing measured. */
  function Initial(host: HostWindow): (s: Machine)
    ensures s.host == Some(host) && !s.playing && !s.isOpen && s.settings == DefaultSettings
  {
    Machine(Some(host), [], false, false, false, Up, TopLeft, Size(0, 0), (0, 0), Idle, DefaultSettings)
  }

  datatype VisualState = Hidden | Showing | Shown | Hiding

  /** The four states: a pending storyboard decides Showing/Hiding, otherwise IsOpen decides. */
  function State(s: Machine): VisualState
  {
    match s.transition
    case Opening(_) => Showing
    case Closing(_) => Hiding
    case Idle => if s.isOpen then Shown else Hidden
  }

  /** The flag is set exactly while a storyboard is pending, and only once the template exists. */
  predicate Inv(s: Machine)
  {
    && (s.playing <==> !s.transition.Idle?)
    && (s.playing ==> s.templateApplied)
  }

  /** The storyboard pending in a transition. */
  function Running(t: Transition): Option<Storyboard>
  {
    match t
    case Idle => None
    case Opening(info) => Some(ShowStoryboard(info))
    case Closing(info) => Some(HideStoryboard(info))
  }

  /** The translate transform after `axis` was set to `v`. */
  function WithAxis(xy: (int, int), axis: TranslateAxis, v: int): (int, int)
  {
    if axis == TranslateX then (v, xy.1) else (xy.0, v)
  }

  /** Where the reveal storyboard for `info` leaves the surface: at rest on the slide axis. */
  function Revealed(xy: (int, int), info: TransformInfo): (int, int)
  {
    WithAxis(xy, AxisOf(info.orientation), 0)
  }

  /** Where the conceal storyboard for `info` leaves the surface: at the offset on the slide axis. */
  function Concealed(xy: (int, int), info: TransformInfo): (int, int)
  {
    WithAxis(xy, AxisOf(info.orientation), info.offset)
  }

  /**
   * A storyboard holds its final value once completed: the surface ends
   * where Revealed and Concealed say, for the storyboards Show and Hide
   * begin.
   */
  lemma StoryboardsEndWhereModelled(xy: (int, int), info: TransformInfo)
    ensures var sb := ShowStoryboard(info); Revealed(xy, info) == WithAxis(xy, TargetOf(sb), FinalValue(sb))
    ensures var sb := HideStoryboard(info); Concealed(xy, info) == WithAxis(xy, TargetOf(sb), FinalValue(sb))
  {
    StoryboardsMirror(info);
  }

  /** OnApplyTemplate: the template parts exist and the root grid gets a fresh (zero) transform. */
  function ApplyTemplate(s: Machine): Machine
  {
    s.(templateApplied := true, translate := (0, 0))
  }

  /** UpdateFlyoutRegion: places the host, if any, by the snapshotted placement. */
  function UpdateFlyoutRegion(s: Machine, workArea: Rect): Machine
  {
    match s.host
    case None => s
    case Some(h) =>
      var region := FlyoutRegion(s.lastPlacement, workArea, s.desiredSize, s.settings.placementLocation);
      s.(host := Some(PlaceHost(h, region)))
  }

  /**
   * Show: nothing without a host or while a storyboard is pending. Otherwise
   * the template is applied, direction and placement are snapshotted, the
   * host is placed and shown, and either the reveal storyboard starts from
   * the pre-positioned offset or, without animations, the flyout opens at
   * once at zero offset.
   */
  function Show(s: Machine, workArea: Rect, desired: Size): (r: Machine)
    ensures s.host.None? || s.playing ==> r == s
    ensures s.host.Some? && !s.playing ==>
              && r.templateApplied
              && r.lastDirection == s.settings.popupDirection
              && r.lastPlacement == s.settings.placement
              && r.desiredSize == desired
              && r.host.Some? && r.host.value.visible
              && r.settings == s.settings && r.closedHosts == s.closedHosts
    ensures s.host.Some? && !s.playing && s.settings.isTransitionAnimationEnabled ==>
              var info := GetTranslateTransformInfo(s.settings.popupDirection, desired);
              && r.playing && r.isOpen == s.isOpen
              && r.translate == PrePositioned(info)
              && r.transition == Opening(info)
    ensures s.host.Some? && !s.playing && !s.settings.isTransitionAnimationEnabled ==>
              !r.playing && r.isOpen && r.translate == (0, 0) && r.transition == s.transition
    ensures Inv(s) ==> Inv(r)
  {
    if s.host.None? || s.playing then s
    else Reveal(BeginShow(s, desired), workArea)
  }

  /**
   * The first half of Show: the template is applied if it was not, the flag
   * is set, direction and placement are snapshotted, the size is measured.
   */
  function BeginShow(s: Machine, desired: Size): (r: Machine)
    ensures r.host == s.host && r.transition == s.transition && r.playing && r.templateApplied
  {
    var applied := if s.templateApplied then s else ApplyTemplate(s);
    applied.(playing := true,
             lastDirection := s.settings.popupDirection,
             lastPlacement := s.settings.placement,
             desiredSize := desired)
  }

  /**
   * The second half of Show: the host is placed and shown; the surface is
   * pre-positioned and the reveal storyboard starts, or, without animations,
   * the flyout opens at zero offset.
   */
  function Reveal(s: Machine, workArea: Rect): (r: Machine)
    requires s.host.Some?
    ensures r.host.Some? && r.host.value.visible
    ensures s.playing && s.templateApplied && s.transition.Idle? ==> Inv(r)
  {
    StartReveal(PrePosition(UpdateFlyoutRegion(s, workArea)))
  }

  /** The surface at the slide's starting offset, or at rest without animations. */
  function PrePosition(s: Machine): Machine
  {
    if s.settings.isTransitionAnimationEnabled then
      s.(translate := PrePositioned(GetTranslateTransformInfo(s.lastDirection, s.desiredSize)))
    else
      s.(translate := (0, 0))
  }

  /** The host is shown; the reveal storyboard starts, or without animations the flyout opens. */
  function StartReveal(s: Machine): Machine
    requires s.host.Some?
  {
    var shown := s.(host := Some(s.host.value.(visible := true)));
    if s.settings.isTransitionAnimationEnabled then
      shown.(transition := Opening(GetTranslateTransformInfo(s.lastDirection, s.desiredSize)))
    else
      shown.(isOpen := true, playing := false)
  }

  /**
   * Hide: nothing without a host or template, or while a storyboard is
   * pending. Otherwise the conceal storyboard for the snapshotted direction
   * starts, sliding by the control's current DesiredSize `desired` (Hide
   * measures nothing and saves no size), or, without animations, the host
   * hides and the flyout closes.
   */
  function Hide(s: Machine, desired: Size): (r: Machine)
    ensures s.host.None? || !s.templateApplied || s.playing ==> r == s
    ensures s.host.Some? && s.templateApplied && !s.playing && s.settings.isTransitionAnimationEnabled ==>
              r == s.(playing := true,
                      transition := Closing(GetTranslateTransformInfo(s.lastDirection, desired)))
    ensures s.host.Some? && s.templateApplied && !s.playing && !s.settings.isTransitionAnimationEnabled ==>
              && !r.playing && !r.isOpen && r.host == Some(s.host.value.(visible := false))
              && r.translate == s.translate && r.transition == s.transition
    ensures Inv(s) ==> Inv(r)
  {
    if s.host.None? || !s.templateApplied || s.playing then s
    else if s.settings.isTransitionAnimationEnabled then
      var info := GetTranslateTransformInfo(s.lastDirection, desired);
      s.(playing := true, transition := Closing(info))
    else
      s.(host := Some(s.host.value.(visible := false)), isOpen := false, playing := false)
  }

  /**
   * The Completed event of the pending storyboard: the animated coordinate
   * holds the storyboard's final value, the flag clears, and IsOpen becomes
   * true after opening, false after closing (which also hides the host).
   */
  function CompleteAnimation(s: Machine): (r: Machine)
    ensures s.transition.Idle? ==> r == s
    ensures !s.transition.Idle? ==> !r.playing && r.transition.Idle? && r.settings == s.settings
    ensures s.transition.Opening? ==> r.isOpen && r.host == s.host
    ensures s.transition.Closing? ==>
              !r.isOpen && r.host == (if s.host.Some? then Some(s.host.value.(visible := false)) else None)
    ensures Inv(s) ==> Inv(r)
  {
    match s.transition
    case Idle => s
    case Opening(info) =>
      s.(translate := Revealed(s.translate, info), transition := Idle, playing := false, isOpen := true)
    case Closing(info) =>
      s.(translate := Concealed(s.translate, info), transition := Idle, playing := false, isOpen := false,
         host := if s.host.Some? then Some(s.host.value.(visible := false)) else None)
  }

  /** Losing focus hides the flyout (at the current DesiredSize) if HideOnLostFocus is set. */
  function HostDeactivated(s: Machine, desired: Size): Machine
  {
    if s.settings.hideOnLostFocus then Hide(s, desired) else s
  }

  /** Dispose closes the host, if still attached, and forgets it. */
  function Dispose(s: Machine): (r: Machine)
    ensures r.host.None?
    ensures r.closedHosts == s.closedHosts + (if s.host.Some? then [s.host.value] else [])
    ensures r == s.(host := None, closedHosts := r.closedHosts)
  {
    if s.host.Some? then s.(host := None, closedHosts := s.closedHosts + [s.host.value]) else s
  }

  // ---------------------------------------------------------------------------
  // Properties of the machine

  lemma InitialIsHidden(host: HostWindow)
    ensures Inv(Initial(host)) && State(Initial(host)) == Hidden
  {
  }

  /** While a storyboard is pending, neither Show nor Hide (nor losing focus) changes anything. */
  lemma ReentrancyGuard(s: Machine, workArea: Rect, desired: Size)
    requires Inv(s) && (State(s) == Showing || State(s) == Hiding)
    ensures Show(s, workArea, desired) == s && Hide(s, desired) == s && HostDeactivated(s, desired) == s
  {
  }

  /**
   * A full animated cycle from Hidden, measured at `desired` when shown and
   * at `later` when hidden: Show starts the reveal from the pre-positioned
   * offset; its completion opens the flyout at rest, at the placed bounds;
   * Hide starts the conceal; its completion closes the flyout, hides the host
   * and leaves the surface at the offset for the size measured at Hide, which
   * is the offset the show started from when the size did not change.
   */
  lemma AnimatedCycle(s: Machine, workArea: Rect, desired: Size, later: Size)
    requires Inv(s) && State(s) == Hidden && s.host.Some? && s.settings.isTransitionAnimationEnabled
    ensures var s1 := Show(s, workArea, desired);
            var s2 := CompleteAnimation(s1);
            var s3 := Hide(s2, later);
            var s4 := CompleteAnimation(s3);
            var region := FlyoutRegion(s.settings.placement, workArea, desired, s.settings.placementLocation);
            && State(s1) == Showing && !s1.isOpen && s1.host.value.visible
            && State(s2) == Shown && s2.translate == (0, 0)
            && s2.host == Some(PlaceHost(s.host.value, region).(visible := true))
            && State(s3) == Hiding && s3.isOpen
            && State(s4) == Hidden && s4.host.Some? && !s4.host.value.visible
            && s4.translate == PrePositioned(GetTranslateTransformInfo(s.settings.popupDirection, later))
            && (later == desired ==> s4.translate == s1.translate)
  {
    StoryboardsMirror(GetTranslateTransformInfo(s.settings.popupDirection, desired));
    StoryboardsMirror(GetTranslateTransformInfo(s.settings.popupDirection, later));
  }

  /** Without animations, Show opens and Hide closes synchronously, with no storyboard. */
  lemma InstantCycle(s: Machine, workArea: Rect, desired: Size, later: Size)
    requires Inv(s) && State(s) == Hidden && s.host.Some? && !s.settings.isTransitionAnimationEnabled
    ensures var s1 := Show(s, workArea, desired);
            var s2 := Hide(s1, later);
            && State(s1) == Shown && s1.translate == (0, 0) && s1.host.value.visible
            && State(s2) == Hidden && !s2.host.value.visible
  {
  }

  /**
   * The direction and placement are read once per show: changing the
   * properties while the flyout is showing or shown changes neither how the
   * pending storyboard completes nor which storyboard the next Hide plays.
   */
  lemma SnapshotIgnoresLaterChanges(s: Machine, direction: PopupDirection, placement: PlacementMode,
                                    desired: Size)
    requires Inv(s)
    ensures var t := s.(settings := s.settings.(popupDirection := direction, placement := placement));
            && CompleteAnimation(t).transition == CompleteAnimation(s).transition
            && CompleteAnimation(t).translate == CompleteAnimation(s).translate
            && Hide(t, desired).transition == Hide(s, desired).transition
  {
  }

  /**
   * Show has no IsOpen guard: on a shown flyout it plays the reveal again, and
   * IsOpen stays true while it runs.
   */
  lemma ShowOnShownReplays(s: Machine, workArea: Rect, desired: Size)
    requires Inv(s) && State(s) == Shown && s.host.Some? && s.settings.isTransitionAnimationEnabled
    ensures State(Show(s, workArea, desired)) == Showing && Show(s, workArea, desired).isOpen
  {
  }

  /** Losing focus while shown starts closing the flyout exactly when HideOnLostFocus is set. */
  lemma DeactivationCloses(s: Machine, desired: Size)
    requires Inv(s) && State(s) == Shown && s.host.Some? && s.templateApplied
    ensures s.settings.hideOnLostFocus ==>
              State(HostDeactivated(s, desired)) == (if s.settings.isTransitionAnimationEnabled then Hiding else Hidden)
    ensures !s.settings.hideOnLostFocus ==> State(HostDeactivated(s, desired)) == Shown
  {
  }

  /**
   * Dispose closes the host once: a second Dispose does nothing, and a
   * disposed flyout ignores Show, Hide and loss of focus.
   */
  lemma DisposeIsFinal(s: Machine, workArea: Rect, desired: Size)
    ensures var d := Dispose(s);
            && Dispose(d) == d
            && Show(d, workArea, desired) == d && Hide(d, desired) == d && HostDeactivated(d, desired) == d
            && |d.closedHosts| <= |s.closedHosts| + 1
  {
  }
}
