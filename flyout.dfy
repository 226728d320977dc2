/**
 * The flyout control and its islands as objects. Each TrayIconFlyout method
 * is proved against the state machine of FlyoutMachine; each island keeps
 * its backdrop by the rule of IslandBackdrop. An island refers back to the
 * flyout that laid it out (a weak reference in the control; here a nullable
 * reference).
 */
module Flyout {

  import opened Wrappers
  import opened BackdropColorHelpers
  import opened TransitionHelpers
  import opened FlyoutLayout
  import opened IslandBackdrop
  import FlyoutMachine

  /** A value assigned to an island's Content: a visual element or any other object. */
  datatype Content = FrameworkElement(element: nat) | OtherContent(value: nat)

  /** A value assigned to IslandsSource. */
  datatype IslandsSourceValue =
    | NoSource
    | IslandList(islands: seq<TrayIconFlyoutIsland>)
    | OtherSource(value: nat)

  /** No island appears twice (a visual can be added to the grid only once). */
  ghost predicate Distinct(islands: seq<TrayIconFlyoutIsland>)
  {
    forall i, j :: 0 <= i < j < |islands| ==> islands[i] != islands[j]
  }

  /** The backdrop an island's update leads to, given its owner's switch (None: no live owner). */
  function IslandBackdropStep(b: Backdrop, ownerEnabled: Option<bool>, hasBorder: bool, theme: TaskbarTheme): Backdrop
  {
    if ownerEnabled.None? || !hasBorder then b else UpdatedBackdrop(b, ownerEnabled.value, theme)
  }

  /** The tracks after the first `k` of `n` islands: their tracks, and the gap after the last if more follow. */
  function TracksSoFar(k: nat, n: nat): seq<GridLength>
  {
    if k == 0 then [] else LayoutTracks(k) + (if k < n then [Pixel(IslandGap)] else [])
  }

  /** Adding island k (an Auto track, then a gap unless it is the last) extends the tracks by one island. */
  lemma TracksStep(k: nat, n: nat)
    requires k < n
    ensures TracksSoFar(k, n) + [Auto] + (if k != n - 1 then [Pixel(IslandGap)] else []) == TracksSoFar(k + 1, n)
  {
    if k > 0 {
      assert LayoutTracks(k + 1) == LayoutTracks(k) + [Pixel(IslandGap), Auto];
    }
  }

  /** The islands a source value lists (none for any other value). */
  function SourceIslands(value: IslandsSourceValue): seq<TrayIconFlyoutIsland>
  {
    if value.IslandList? then value.islands else []
  }

  class TrayIconFlyoutIsland {
    var owner: TrayIconFlyout?
    /** The template parts (root grid, backdrop border, content presenter) exist. */
    var templateApplied: bool
    var borderVisibility: Visibility
    var background: Option<Color>
    var lastLight: Option<bool>
    var lastPrevalence: Option<bool>
    var content: Option<Content>
    var presenterContent: Option<Content>
    var gridRow: nat
    var gridColumn: nat

    function Backdrop(): Backdrop
      reads this`borderVisibility, this`background, this`lastLight, this`lastPrevalence
    {
      IslandBackdrop.Backdrop(borderVisibility, background, lastLight, lastPrevalence)
    }

    /** The owner's backdrop switch, if the island has an owner. */
    function OwnerBackdropEnabled(): Option<bool>
      reads this`owner, (if owner == null then {} else {owner})`isBackdropEnabled
    {
      if owner == null then None else Some(owner.isBackdropEnabled)
    }

    constructor ()
      ensures owner == null && !templateApplied && Backdrop() == FreshBackdrop
      ensures content == None && presenterContent == None && gridRow == 0 && gridColumn == 0
    {
      owner := null;
      templateApplied := false;
      borderVisibility := Visible;
      background := None;
      lastLight := None;
      lastPrevalence := None;
      content := None;
      presenterContent := None;
      gridRow := 0;
      gridColumn := 0;
    }

    method OnApplyTemplate()
      modifies this`templateApplied
      ensures templateApplied
    {
      templateApplied := true;
    }

    method SetOwner(flyout: TrayIconFlyout)
      modifies this`owner
      ensures owner == flyout
    {
      owner := flyout;
    }

    /** Recolours the backdrop border for the taskbar theme, by the cache rule. */
    method UpdateBackdrop(theme: TaskbarTheme)
      modifies this`borderVisibility, this`background, this`lastLight, this`lastPrevalence
      ensures Backdrop() == IslandBackdropStep(old(Backdrop()), OwnerBackdropEnabled(), templateApplied, theme)
    {
      if owner == null || !templateApplied {
        return;
      }
      if owner.isBackdropEnabled {
        borderVisibility := Visible;
        var shouldUpdateBackdrop := lastLight != Some(theme.isLight) || lastPrevalence != Some(theme.isColorPrevalence);
        lastLight := Some(theme.isLight);
        lastPrevalence := Some(theme.isColorPrevalence);
        if !shouldUpdateBackdrop {
          return;
        }
        background := Some(if theme.isColorPrevalence then GetAccentedBackgroundColor(theme.accentDark2)
                           else if theme.isLight then GetLightBackgroundColor()
                           else GetDarkBackgroundColor());
      } else {
        borderVisibility := Collapsed;
      }
    }

    /**
     * Assigning Content: the property takes the value, and the change handler
     * runs only when the value differs from the current one (a dependency
     * property raises its callback on a change only).
     */
    method SetContent(value: Option<Content>)
      modifies this`content, this`presenterContent
      ensures content == value
      ensures presenterContent ==
                (if value != old(content) && value.Some? && value.value.FrameworkElement? && templateApplied then value
                 else old(presenterContent))
    {
      var oldValue := content;
      content := value;
      if value != oldValue {
        HandleContentChanged(oldValue, value);
      }
    }

    /** A new visual element goes to the content presenter, if the presenter exists. */
    method HandleContentChanged(oldValue: Option<Content>, newValue: Option<Content>)
      modifies this`presenterContent
      ensures newValue.Some? && newValue.value.FrameworkElement? && templateApplied ==>
                presenterContent == newValue
      ensures !(newValue.Some? && newValue.value.FrameworkElement? && templateApplied) ==>
                presenterContent == old(presenterContent)
    {
      if !(newValue.Some? && newValue.value.FrameworkElement?) || !templateApplied {
        return;
      }
      presenterContent := newValue;
    }
  }

  class TrayIconFlyout {
    var host: Option<HostWindow>
    var closedHosts: seq<HostWindow>
    var templateApplied: bool
    var isPopupAnimationPlaying: bool
    var isOpen: bool
    var lastPopupDirection: PopupDirection
    var lastPlacement: PlacementMode
    var desiredSize: Size
    var translate: (int, int)
    var transition: FlyoutMachine.Transition

    var isBackdropEnabled: bool
    var hideOnLostFocus: bool
    var isTransitionAnimationEnabled: bool
    var popupDirection: PopupDirection
    var islandsOrientation: Orientation
    var placement: PlacementMode
    var placementLocation: Point

    var islands: seq<TrayIconFlyoutIsland>
    var islandsSource: IslandsSourceValue
    var gridChildren: seq<TrayIconFlyoutIsland>
    var gridRows: seq<GridLength>
    var gridColumns: seq<GridLength>

    function Settings(): FlyoutMachine.Settings
      reads this`isBackdropEnabled, this`hideOnLostFocus, this`isTransitionAnimationEnabled
      reads this`popupDirection, this`islandsOrientation, this`placement, this`placementLocation
    {
      FlyoutMachine.Settings(isBackdropEnabled, hideOnLostFocus, isTransitionAnimationEnabled,
                             popupDirection, islandsOrientation, placement, placementLocation)
    }

    function Model(): FlyoutMachine.Machine
      reads this`host, this`closedHosts, this`templateApplied, this`isPopupAnimationPlaying, this`isOpen
      reads this`lastPopupDirection, this`lastPlacement, this`desiredSize, this`translate, this`transition
      reads this`isBackdropEnabled, this`hideOnLostFocus, this`isTransitionAnimationEnabled
      reads this`popupDirection, this`islandsOrientation, this`placement, this`placementLocation
    {
      FlyoutMachine.Machine(host, closedHosts, templateApplied, isPopupAnimationPlaying, isOpen,
                            lastPopupDirection, lastPlacement, desiredSize, translate, transition, Settings())
    }

    ghost predicate Valid()
      reads this
    {
      FlyoutMachine.Inv(Model()) && IslandsValid()
    }

    /**
     * No island is listed twice, and the grid holds a prefix of the islands:
     * nothing before the template is applied, all of them after a layout,
     * and the earlier ones after an island is added.
     */
    ghost predicate IslandsValid()
      reads this`islands, this`gridChildren, this`templateApplied
    {
      Distinct(islands) && gridChildren <= islands && (!templateApplied ==> gridChildren == [])
    }

    /**
     * The islands grid holds exactly the islands: island i in cell
     * IslandCell(orientation, i) with this flyout as owner, and tracks along
     * the orientation only.
     */
    ghost predicate LaidOut()
      reads this`islands, this`islandsOrientation, this`gridChildren, this`gridRows, this`gridColumns
      reads islands`owner, islands`gridRow, islands`gridColumn
    {
      && gridChildren == islands
      && (islandsOrientation == Vertical ==> gridRows == LayoutTracks(|islands|) && gridColumns == [])
      && (islandsOrientation == Horizontal ==> gridColumns == LayoutTracks(|islands|) && gridRows == [])
      && forall i :: 0 <= i < |islands| ==>
           && islands[i].owner == this
           && (islands[i].gridRow, islands[i].gridColumn) == IslandCell(islandsOrientation, i)
    }

    constructor (host: HostWindow)
      ensures Valid() && Model() == FlyoutMachine.Initial(host)
      ensures islands == [] && islandsSource == NoSource
      ensures gridChildren == [] && gridRows == [] && gridColumns == []
    {
      this.host := Some(host);
      closedHosts := [];
      templateApplied := false;
      isPopupAnimationPlaying := false;
      isOpen := false;
      lastPopupDirection := Up;
      lastPlacement := TopLeft;
      desiredSize := Size(0, 0);
      translate := (0, 0);
      transition := FlyoutMachine.Idle;
      isBackdropEnabled := true;
      hideOnLostFocus := true;
      isTransitionAnimationEnabled := true;
      popupDirection := Up;
      islandsOrientation := Vertical;
      placement := BottomRight;
      placementLocation := Point(0, 0);
      islands := [];
      islandsSource := NoSource;
      gridChildren := [];
      gridRows := [];
      gridColumns := [];
    }

    /** Every island laid out in the grid has its template applied. */
    predicate GridTemplated()
      reads this`gridChildren, gridChildren`templateApplied
    {
      forall i :: 0 <= i < |gridChildren| ==> gridChildren[i].templateApplied
    }

    /** The tracks along the islands' orientation, and the tracks across it. */
    function MainTracks(): seq<GridLength>
      reads this`islandsOrientation, this`gridRows, this`gridColumns
    {
      if islandsOrientation == Vertical then gridRows else gridColumns
    }

    function CrossTracks(): seq<GridLength>
      reads this`islandsOrientation, this`gridRows, this`gridColumns
    {
      if islandsOrientation == Vertical then gridColumns else gridRows
    }

    /** The template is applied: the root grid gets a fresh transform, then the islands are laid out. */
    method OnApplyTemplate()
      requires Valid()
      modifies this`templateApplied, this`translate, this`gridChildren, this`gridRows, this`gridColumns
      modifies islands`owner, islands`gridRow, islands`gridColumn
      ensures Valid() && Model() == FlyoutMachine.ApplyTemplate(old(Model()))
      ensures LaidOut()
    {
      AttachTemplateParts();
      UpdateIslands();
    }

    /** The template parts are found and the root grid gets a fresh (zero) translate transform. */
    method AttachTemplateParts()
      modifies this`templateApplied, this`translate
      ensures Model() == FlyoutMachine.ApplyTemplate(old(Model()))
    {
      templateApplied := true;
      translate := (0, 0);
    }

    /** Applies the template if it has not been applied yet (OnApplyTemplate runs only the first time). */
    method ApplyTemplate()
      requires Valid()
      modifies this`templateApplied, this`translate, this`gridChildren, this`gridRows, this`gridColumns
      modifies islands`owner, islands`gridRow, islands`gridColumn
      ensures Valid() && templateApplied
      ensures old(templateApplied) ==> Model() == old(Model())
      ensures !old(templateApplied) ==> Model() == FlyoutMachine.ApplyTemplate(old(Model()))
      ensures old(templateApplied) ==>
                && gridChildren == old(gridChildren) && gridRows == old(gridRows) && gridColumns == old(gridColumns)
                && forall i :: 0 <= i < |islands| ==>
                     && islands[i].owner == old(islands[i].owner)
                     && islands[i].gridRow == old(islands[i].gridRow)
                     && islands[i].gridColumn == old(islands[i].gridColumn)
      ensures !old(templateApplied) ==> LaidOut()
    {
      if !templateApplied {
        OnApplyTemplate();
      }
    }

    /**
     * Shows the flyout. `workArea` is the primary screen's work area,
     * `desired` the measured size of the control, `theme` the taskbar theme
     * read from the registry and the UI settings.
     */
    method Show(workArea: Rect, desired: Size, theme: TaskbarTheme)
      requires Valid()
      modifies this`host, this`templateApplied, this`isPopupAnimationPlaying, this`isOpen
      modifies this`lastPopupDirection, this`lastPlacement, this`desiredSize, this`translate, this`transition
      modifies this`gridChildren, this`gridRows, this`gridColumns
      modifies islands`owner, islands`gridRow, islands`gridColumn, islands`templateApplied
      modifies islands`borderVisibility, islands`background, islands`lastLight, islands`lastPrevalence
      ensures Valid() && Model() == FlyoutMachine.Show(old(Model()), workArea, desired)
      ensures old(host.None? || isPopupAnimationPlaying) ==>
                && gridChildren == old(gridChildren) && gridRows == old(gridRows) && gridColumns == old(gridColumns)
                && forall i :: 0 <= i < |islands| ==> unchanged(islands[i])
      ensures old(host.Some? && !isPopupAnimationPlaying && templateApplied) ==>
                && gridChildren == old(gridChildren) && gridRows == old(gridRows) && gridColumns == old(gridColumns)
                && forall i :: 0 <= i < |islands| ==>
                     && islands[i].owner == old(islands[i].owner)
                     && islands[i].gridRow == old(islands[i].gridRow)
                     && islands[i].gridColumn == old(islands[i].gridColumn)
      ensures old(host.Some? && !isPopupAnimationPlaying && !templateApplied) ==> LaidOut()
      ensures old(host.Some? && !isPopupAnimationPlaying) ==> GridTemplated()
      ensures old(host.Some? && !isPopupAnimationPlaying && !templateApplied) ==>
                forall i :: 0 <= i < |islands| ==>
                  islands[i].Backdrop() == UpdatedBackdrop(old(islands[i].Backdrop()), isBackdropEnabled, theme)
      ensures old(host.Some? && !isPopupAnimationPlaying) ==>
                forall i :: 0 <= i < |islands| ==>
                  islands[i].Backdrop() ==
                    IslandBackdropStep(old(islands[i].Backdrop()), islands[i].OwnerBackdropEnabled(),
                                       islands[i].templateApplied, theme)
    {
      if host.None? || isPopupAnimationPlaying {
        return;
      }
      ShowUnguarded(workArea, desired, theme);
    }

    /**
     * Show past its guard: the template, the snapshot, the islands' templates
     * and backdrops, the placement and the reveal.
     */
    method ShowUnguarded(workArea: Rect, desired: Size, theme: TaskbarTheme)
      requires Valid() && host.Some? && !isPopupAnimationPlaying
      modifies this`host, this`templateApplied, this`isPopupAnimationPlaying, this`isOpen
      modifies this`lastPopupDirection, this`lastPlacement, this`desiredSize, this`translate, this`transition
      modifies this`gridChildren, this`gridRows, this`gridColumns
      modifies islands`owner, islands`gridRow, islands`gridColumn, islands`templateApplied
      modifies islands`borderVisibility, islands`background, islands`lastLight, islands`lastPrevalence
      ensures Valid() && Model() == FlyoutMachine.Reveal(FlyoutMachine.BeginShow(old(Model()), desired), workArea)
      ensures old(templateApplied) ==>
                && gridChildren == old(gridChildren) && gridRows == old(gridRows) && gridColumns == old(gridColumns)
                && forall i :: 0 <= i < |islands| ==>
                     && islands[i].owner == old(islands[i].owner)
                     && islands[i].gridRow == old(islands[i].gridRow)
                     && islands[i].gridColumn == old(islands[i].gridColumn)
      ensures !old(templateApplied) ==> LaidOut()
      ensures GridTemplated()
      ensures forall i :: 0 <= i < |islands| ==>
                  islands[i].Backdrop() ==
                    IslandBackdropStep(old(islands[i].Backdrop()), islands[i].OwnerBackdropEnabled(),
                                       islands[i].templateApplied, theme)
    {
      BeginShow(desired);
      FinishShow(workArea, theme);
    }

    /** Show past the snapshot: measuring and the backdrops, then placing and revealing the host. */
    method FinishShow(workArea: Rect, theme: TaskbarTheme)
      requires host.Some? && Distinct(islands) && gridChildren <= islands
      modifies this`host, this`translate, this`transition, this`isOpen, this`isPopupAnimationPlaying
      modifies islands`templateApplied
      modifies islands`borderVisibility, islands`background, islands`lastLight, islands`lastPrevalence
      ensures Model() == FlyoutMachine.Reveal(old(Model()), workArea)
      ensures GridTemplated()
      ensures forall i :: 0 <= i < |islands| ==>
                  islands[i].Backdrop() ==
                    IslandBackdropStep(old(islands[i].Backdrop()), islands[i].OwnerBackdropEnabled(),
                                       islands[i].templateApplied, theme)
      ensures LaidOut() == old(LaidOut())
      ensures forall i :: 0 <= i < |islands| ==>
                && islands[i].owner == old(islands[i].owner)
                && islands[i].gridRow == old(islands[i].gridRow)
                && islands[i].gridColumn == old(islands[i].gridColumn)
    {
      MeasureAndUpdateBackdrop(theme);
      Reveal(workArea);
    }

    /** Applies the template if needed, sets the flag, and snapshots direction, placement and the measured size. */
    method BeginShow(desired: Size)
      requires Valid()
      modifies this`templateApplied, this`translate, this`gridChildren, this`gridRows, this`gridColumns
      modifies this`isPopupAnimationPlaying, this`lastPopupDirection, this`lastPlacement, this`desiredSize
      modifies islands`owner, islands`gridRow, islands`gridColumn
      ensures Model() == FlyoutMachine.BeginShow(old(Model()), desired)
      ensures IslandsValid() && templateApplied
      ensures old(templateApplied) ==>
                && gridChildren == old(gridChildren) && gridRows == old(gridRows) && gridColumns == old(gridColumns)
                && forall i :: 0 <= i < |islands| ==>
                     && islands[i].owner == old(islands[i].owner)
                     && islands[i].gridRow == old(islands[i].gridRow)
                     && islands[i].gridColumn == old(islands[i].gridColumn)
      ensures !old(templateApplied) ==> LaidOut()
      ensures forall i :: 0 <= i < |islands| ==> islands[i].Backdrop() == old(islands[i].Backdrop())
    {
      ApplyTemplate();
      StartShowing(desired);
    }

    /**
     * Measures the control, which applies the template of every island laid
     * out in the grid that has none yet (creating its backdrop border), then
     * updates every island's backdrop for the taskbar theme.
     */
    method MeasureAndUpdateBackdrop(theme: TaskbarTheme)
      requires Distinct(islands) && gridChildren <= islands
      modifies islands`templateApplied
      modifies islands`borderVisibility, islands`background, islands`lastLight, islands`lastPrevalence
      ensures GridTemplated()
      ensures forall i :: 0 <= i < |islands| ==>
                islands[i].Backdrop() ==
                  IslandBackdropStep(old(islands[i].Backdrop()), islands[i].OwnerBackdropEnabled(),
                                     islands[i].templateApplied, theme)
      ensures LaidOut() == old(LaidOut())
      ensures forall i :: 0 <= i < |islands| ==>
                && islands[i].owner == old(islands[i].owner)
                && islands[i].gridRow == old(islands[i].gridRow)
                && islands[i].gridColumn == old(islands[i].gridColumn)
    {
      ApplyIslandTemplates();
      UpdateBackdrop(theme);
    }

    /** Applies the template of every island laid out in the grid that has none yet. */
    method ApplyIslandTemplates()
      requires gridChildren <= islands
      modifies islands`templateApplied
      ensures GridTemplated()
    {
      var k := 0;
      while k < |gridChildren|
        invariant 0 <= k <= |gridChildren|
        invariant forall i :: 0 <= i < k ==> gridChildren[i].templateApplied
      {
        var island := gridChildren[k];
        assert island == islands[k];
        if !island.templateApplied {
          island.OnApplyTemplate();
        }
        k := k + 1;
      }
    }

    /** Sets the flag, snapshots direction and placement, and takes the measured size. */
    method StartShowing(desired: Size)
      modifies this`isPopupAnimationPlaying, this`lastPopupDirection, this`lastPlacement, this`desiredSize
      ensures Model() == old(Model()).(playing := true, lastDirection := popupDirection,
                                       lastPlacement := placement, desiredSize := desired)
    {
      isPopupAnimationPlaying := true;
      lastPopupDirection := popupDirection;
      lastPlacement := placement;
      desiredSize := desired;
    }

    /** Places and shows the host, then starts the reveal or opens at once. */
    method Reveal(workArea: Rect)
      requires host.Some?
      modifies this`host, this`translate, this`transition, this`isOpen, this`isPopupAnimationPlaying
      ensures Model() == FlyoutMachine.Reveal(old(Model()), workArea)
      ensures LaidOut() == old(LaidOut())
      ensures forall i :: 0 <= i < |islands| ==>
                && islands[i].owner == old(islands[i].owner)
                && islands[i].gridRow == old(islands[i].gridRow)
                && islands[i].gridColumn == old(islands[i].gridColumn)
    {
      UpdateFlyoutRegion(workArea);
      var info := PrePosition();
      StartReveal(info);
    }

    /**
     * Sets the root grid's translate transform: to the slide's starting
     * offset, whose slide is returned, or to zero without animations.
     */
    method PrePosition() returns (info: TransformInfo)
      modifies this`translate
      ensures Model() == FlyoutMachine.PrePosition(old(Model()))
      ensures isTransitionAnimationEnabled ==> info == GetTranslateTransformInfo(lastPopupDirection, desiredSize)
    {
      info := TransformInfo(Vertical, 0);
      if isTransitionAnimationEnabled {
        info := GetTranslateTransformInfo(lastPopupDirection, desiredSize);
        if info.orientation == Vertical {
          translate := (0, info.offset);
        } else {
          translate := (info.offset, 0);
        }
      } else {
        translate := (0, 0);
      }
    }

    /** Shows the host, then begins the reveal storyboard for `info`, or opens at once. */
    method StartReveal(info: TransformInfo)
      requires host.Some?
      requires isTransitionAnimationEnabled ==> info == GetTranslateTransformInfo(lastPopupDirection, desiredSize)
      modifies this`host, this`transition, this`isOpen, this`isPopupAnimationPlaying
      ensures Model() == FlyoutMachine.StartReveal(old(Model()))
    {
      host := Some(host.value.(visible := true));
      if isTransitionAnimationEnabled {
        transition := FlyoutMachine.Opening(info);
      } else {
        isOpen := true;
        isPopupAnimationPlaying := false;
      }
    }

    /**
     * Hides the flyout, with the conceal storyboard if animations are on;
     * `desired` is the control's current DesiredSize, which sets the slide.
     */
    method Hide(desired: Size)
      requires Valid()
      modifies this`isPopupAnimationPlaying, this`transition, this`host, this`isOpen
      ensures Valid() && Model() == FlyoutMachine.Hide(old(Model()), desired)
    {
      if host.None? || !templateApplied || isPopupAnimationPlaying {
        return;
      }
      isPopupAnimationPlaying := true;
      if isTransitionAnimationEnabled {
        var info := GetTranslateTransformInfo(lastPopupDirection, desired);
        transition := FlyoutMachine.Closing(info);
      } else {
        host := Some(host.value.(visible := false));
        isOpen := false;
        isPopupAnimationPlaying := false;
      }
    }

    /**
     * The Completed event of the pending storyboard (nothing is pending when
     * idle). The animated coordinate holds the storyboard's final value.
     */
    method CompleteAnimation()
      requires Valid()
      modifies this`isPopupAnimationPlaying, this`isOpen, this`host, this`translate, this`transition
      ensures Valid() && Model() == FlyoutMachine.CompleteAnimation(old(Model()))
    {
      match transition
      case Idle =>
      case Opening(info) =>
        OpenAnimationCompleted(info);
      case Closing(info) =>
        CloseAnimationCompleted(info);
    }

    /**
     * The reveal storyboard for `info` completed, holding its final value
     * (FlyoutMachine.StoryboardsEndWhereModelled): the flyout is open.
     */
    method OpenAnimationCompleted(info: TransformInfo)
      requires transition == FlyoutMachine.Opening(info)
      modifies this`isPopupAnimationPlaying, this`isOpen, this`translate, this`transition
      ensures Model() == FlyoutMachine.CompleteAnimation(old(Model()))
    {
      translate := FlyoutMachine.Revealed(translate, info);
      FinishAnimation(true);
    }

    /**
     * The conceal storyboard for `info` completed, holding its final value:
     * the flyout is closed and the host hidden.
     */
    method CloseAnimationCompleted(info: TransformInfo)
      requires transition == FlyoutMachine.Closing(info)
      modifies this`isPopupAnimationPlaying, this`isOpen, this`host, this`translate, this`transition
      ensures Model() == FlyoutMachine.CompleteAnimation(old(Model()))
    {
      translate := FlyoutMachine.Concealed(translate, info);
      FinishAnimation(false);
      HideHost();
    }

    /** The storyboard is done: the flag clears and IsOpen takes `open`. */
    method FinishAnimation(open: bool)
      modifies this`transition, this`isPopupAnimationPlaying, this`isOpen
      ensures Model() == old(Model()).(transition := FlyoutMachine.Idle, playing := false, isOpen := open)
    {
      transition := FlyoutMachine.Idle;
      isPopupAnimationPlaying := false;
      isOpen := open;
    }

    /** Hides the host window, if there is one. */
    method HideHost()
      modifies this`host
      ensures Model() == old(Model()).(host := if old(host).Some? then Some(old(host).value.(visible := false)) else None)
    {
      if host.Some? {
        host := Some(host.value.(visible := false));
      }
    }

    /** The host window lost focus; `desired` is the control's current DesiredSize. */
    method HostDeactivated(desired: Size)
      requires Valid()
      modifies this`isPopupAnimationPlaying, this`transition, this`host, this`isOpen
      ensures Valid() && Model() == FlyoutMachine.HostDeactivated(old(Model()), desired)
    {
      if hideOnLostFocus {
        Hide(desired);
      }
    }

    /** Unsubscribes from and closes the host, then forgets it. */
    method Dispose()
      requires Valid()
      modifies this`host, this`closedHosts
      ensures Valid() && Model() == FlyoutMachine.Dispose(old(Model()))
    {
      if host.Some? {
        closedHosts := closedHosts + [host.value];
        host := None;
      }
    }

    /** Moves and sizes the host window for the snapshotted placement. */
    method UpdateFlyoutRegion(workArea: Rect)
      modifies this`host
      ensures Model() == FlyoutMachine.UpdateFlyoutRegion(old(Model()), workArea)
    {
      if host.None? {
        return;
      }
      var left: int, top: int;
      match lastPlacement {
        case TopLeft =>
          left, top := workArea.left, workArea.top;
        case TopRight =>
          left, top := workArea.Right() - desiredSize.width, workArea.top;
        case BottomLeft =>
          left, top := workArea.left, workArea.Bottom() - desiredSize.height;
        case BottomRight =>
          left, top := workArea.Right() - desiredSize.width, workArea.Bottom() - desiredSize.height;
        case Custom =>
          left, top := placementLocation.x, placementLocation.y;
      }
      host := Some(host.value.(left := left, top := top, width := desiredSize.width, height := desiredSize.height));
    }

    /** Updates the backdrop of every island, in order, for the current taskbar theme. */
    method UpdateBackdrop(theme: TaskbarTheme)
      requires Distinct(islands)
      modifies islands`borderVisibility, islands`background, islands`lastLight, islands`lastPrevalence
      ensures forall i :: 0 <= i < |islands| ==>
                islands[i].Backdrop() ==
                  IslandBackdropStep(old(islands[i].Backdrop()), islands[i].OwnerBackdropEnabled(),
                                     islands[i].templateApplied, theme)
    {
      var k := 0;
      while k < |islands|
        invariant 0 <= k <= |islands|
        invariant forall i :: 0 <= i < k ==>
                    islands[i].Backdrop() ==
                      IslandBackdropStep(old(islands[i].Backdrop()), islands[i].OwnerBackdropEnabled(),
                                         islands[i].templateApplied, theme)
        invariant forall i :: k <= i < |islands| ==> islands[i].Backdrop() == old(islands[i].Backdrop())
      {
        assert forall i :: 0 <= i < |islands| && i != k ==> islands[i] != islands[k];
        islands[k].UpdateBackdrop(theme);
        k := k + 1;
      }
    }

    /** Sets IsBackdropEnabled; a real change re-runs the backdrop update. */
    method SetIsBackdropEnabled(value: bool, theme: TaskbarTheme)
      requires Valid()
      modifies this`isBackdropEnabled
      modifies islands`borderVisibility, islands`background, islands`lastLight, islands`lastPrevalence
      ensures Valid() && Model() == old(Model()).(settings := old(Model()).settings.(isBackdropEnabled := value))
      ensures old(isBackdropEnabled) == value ==> forall i :: 0 <= i < |islands| ==> unchanged(islands[i])
      ensures old(isBackdropEnabled) != value ==>
                forall i :: 0 <= i < |islands| ==>
                  islands[i].Backdrop() ==
                    IslandBackdropStep(old(islands[i].Backdrop()), islands[i].OwnerBackdropEnabled(),
                                       islands[i].templateApplied, theme)
    {
      var oldValue := isBackdropEnabled;
      isBackdropEnabled := value;
      OnIsBackdropEnabledPropertyChanged(oldValue, value, theme);
    }

    /** The IsBackdropEnabled change callback: a real change re-runs the backdrop update. */
    method OnIsBackdropEnabledPropertyChanged(oldValue: bool, newValue: bool, theme: TaskbarTheme)
      requires Distinct(islands)
      modifies islands`borderVisibility, islands`background, islands`lastLight, islands`lastPrevalence
      ensures oldValue == newValue ==> forall i :: 0 <= i < |islands| ==> unchanged(islands[i])
      ensures oldValue != newValue ==>
                forall i :: 0 <= i < |islands| ==>
                  islands[i].Backdrop() ==
                    IslandBackdropStep(old(islands[i].Backdrop()), islands[i].OwnerBackdropEnabled(),
                                       islands[i].templateApplied, theme)
    {
      if oldValue != newValue {
        UpdateBackdrop(theme);
      }
    }

    /** Adds an island to the Islands collection (as XAML content does); the grid is not rebuilt. */
    method AddIsland(island: TrayIconFlyoutIsland)
      requires Valid() && island !in islands
      modifies this`islands
      ensures Valid() && islands == old(islands) + [island]
    {
      islands := islands + [island];
    }

    /**
     * Sets IslandsSource. A new value that is a sequence of islands replaces
     * the Islands collection, in order, and lays it out again; any other new
     * value, or the same value again, leaves the islands alone.
     */
    method SetIslandsSource(value: IslandsSourceValue)
      requires Valid()
      requires value.IslandList? ==> Distinct(value.islands)
      modifies this`islandsSource, this`islands, this`gridChildren, this`gridRows, this`gridColumns
      modifies SourceIslands(value)`owner, SourceIslands(value)`gridRow, SourceIslands(value)`gridColumn
      ensures Valid() && islandsSource == value && Model() == old(Model())
      ensures value == old(islandsSource) || !value.IslandList? ==>
                && islands == old(islands) && gridChildren == old(gridChildren)
                && gridRows == old(gridRows) && gridColumns == old(gridColumns)
      ensures value != old(islandsSource) && value.IslandList? ==>
                islands == value.islands && (templateApplied ==> LaidOut())
    {
      var changed := value != islandsSource;
      islandsSource := value;
      if changed {
        OnIslandsSourceChanged(value);
      }
    }

    method OnIslandsSourceChanged(newValue: IslandsSourceValue)
      requires Valid()
      requires newValue.IslandList? ==> Distinct(newValue.islands)
      modifies this`islands, this`gridChildren, this`gridRows, this`gridColumns
      modifies SourceIslands(newValue)`owner, SourceIslands(newValue)`gridRow, SourceIslands(newValue)`gridColumn
      ensures Valid() && Model() == old(Model())
      ensures !newValue.IslandList? ==>
                && islands == old(islands) && gridChildren == old(gridChildren)
                && gridRows == old(gridRows) && gridColumns == old(gridColumns)
      ensures newValue.IslandList? ==> islands == newValue.islands && (templateApplied ==> LaidOut())
    {
      if !newValue.IslandList? {
        return;
      }
      ReplaceIslands(newValue.islands);
      UpdateIslands();
    }

    /** Clears the Islands collection and adds the new islands one by one. */
    method ReplaceIslands(newIslands: seq<TrayIconFlyoutIsland>)
      modifies this`islands
      ensures islands == newIslands
    {
      islands := [];
      var k := 0;
      while k < |newIslands|
        invariant 0 <= k <= |newIslands|
        invariant islands == newIslands[..k]
      {
        islands := islands + [newIslands[k]];
        k := k + 1;
      }
      assert newIslands[..k] == newIslands;
    }

    /** Lays out the islands and gives each of them this flyout as owner; nothing without a template. */
    method UpdateIslands()
      requires Distinct(islands)
      modifies this`gridChildren, this`gridRows, this`gridColumns, islands`owner, islands`gridRow, islands`gridColumn
      ensures templateApplied ==> LaidOut() && gridChildren == islands
      ensures !templateApplied ==> && gridChildren == old(gridChildren) && gridRows == old(gridRows)
                                   && gridColumns == old(gridColumns)
                                   && forall i :: 0 <= i < |islands| ==> unchanged(islands[i])
    {
      if !templateApplied {
        return;
      }
      LayOutIslands();
    }

    /** Clears the islands grid, then adds every island in order, each with its tracks. */
    method LayOutIslands()
      requires Distinct(islands)
      modifies this`gridChildren, this`gridRows, this`gridColumns, islands`owner, islands`gridRow, islands`gridColumn
      ensures LaidOut() && gridChildren == islands
    {
      ClearGrid();
      var index := 0;
      while index < |islands|
        invariant 0 <= index <= |islands|
        invariant MainTracks() == TracksSoFar(index, |islands|) && CrossTracks() == []
        invariant gridChildren == islands[..index]
        invariant forall i :: 0 <= i < index ==> islands[i].owner == this
        invariant forall i :: 0 <= i < index ==> (islands[i].gridRow, islands[i].gridColumn) == IslandCell(islandsOrientation, i)
      {
        PlaceNext(index);
        index := index + 1;
      }
      assert islands[..index] == islands;
    }

    /** Removes the grid's children and its row and column definitions. */
    method ClearGrid()
      modifies this`gridChildren, this`gridRows, this`gridColumns
      ensures gridChildren == [] && gridRows == [] && gridColumns == []
    {
      gridChildren := [];
      gridRows := [];
      gridColumns := [];
    }

    /** The layout loop's step: island `index` is laid out; the islands before it keep their places. */
    method PlaceNext(index: nat)
      requires Distinct(islands) && index < |islands|
      requires MainTracks() == TracksSoFar(index, |islands|) && CrossTracks() == []
      requires gridChildren == islands[..index]
      requires forall i :: 0 <= i < index ==> islands[i].owner == this
      requires forall i :: 0 <= i < index ==> (islands[i].gridRow, islands[i].gridColumn) == IslandCell(islandsOrientation, i)
      modifies this`gridChildren, this`gridRows, this`gridColumns, islands`owner, islands`gridRow, islands`gridColumn
      ensures MainTracks() == TracksSoFar(index + 1, |islands|) && CrossTracks() == []
      ensures gridChildren == islands[..index + 1]
      ensures forall i :: 0 <= i < index + 1 ==> islands[i].owner == this
      ensures forall i :: 0 <= i < index + 1 ==> (islands[i].gridRow, islands[i].gridColumn) == IslandCell(islandsOrientation, i)
    {
      assert forall i :: 0 <= i < index ==> islands[i] != islands[index];
      LayOutIsland(islands[index], index);
    }

    /**
     * One pass of the layout loop: island `index` gets an Auto track, its cell
     * and this flyout as owner, followed by a gap track unless it is the last.
     */
    method LayOutIsland(island: TrayIconFlyoutIsland, index: nat)
      requires index < |islands| && islands[index] == island
      requires MainTracks() == TracksSoFar(index, |islands|) && CrossTracks() == []
      requires gridChildren == islands[..index]
      modifies this`gridChildren, this`gridRows, this`gridColumns
      modifies island`owner, island`gridRow, island`gridColumn
      ensures MainTracks() == TracksSoFar(index + 1, |islands|) && CrossTracks() == []
      ensures gridChildren == islands[..index + 1]
      ensures island.owner == this
      ensures (island.gridRow, island.gridColumn) == IslandCell(islandsOrientation, index)
    {
      if islandsOrientation == Vertical {
        gridRows := gridRows + [Auto];
        island.gridRow, island.gridColumn := index * 2, 0;
      } else {
        gridColumns := gridColumns + [Auto];
        island.gridRow, island.gridColumn := 0, index * 2;
      }
      island.SetOwner(this);
      gridChildren := gridChildren + [island];
      if index != |islands| - 1 {
        if islandsOrientation == Vertical {
          gridRows := gridRows + [Pixel(IslandGap)];
        } else {
          gridColumns := gridColumns + [Pixel(IslandGap)];
        }
      }
      TracksStep(index, |islands|);
      assert islands[..index + 1] == islands[..index] + [island];
    }
  }
}
