# TrayIconFlyout.Wpf, modelled in Dafny

TrayIconFlyout.Wpf puts an icon in the Windows notification area and opens
a flyout window from it. The flyout is a borderless host window holding
"islands", which are rounded content panels. This project models the
library's three cooperating state machines and the small helpers they use:

- **The tray icon** (`SystemTrayIcon` and its hidden `SystemTrayIconWindow`).
  It keeps a visible flag and a created flag, and talks to the shell through
  `Shell_NotifyIcon`. It decodes the shell's callback message into mouse
  events and re-registers itself when the taskbar restarts. The calls to
  Shell_NotifyIcon, Shell_NotifyIconGetRect, SetForegroundWindow and
  DefWindowProc are appended, in order, to a log (`calls`), the handles given
  to DestroyWindow to the window's log, and every raised event to a third
  (`raised`). What the shell, CreateWindowEx, RegisterWindowMessage and
  `DefWindowProc` answer are inputs. The messages CreateWindowEx and
  DestroyWindow send before they return reach the icon's window procedure. The pure
  specification is in `NotifyIconProtocol` (notify_icon_protocol.dfy), and
  the classes in `TrayIcon` (tray_icon.dfy) are proved against it. The icon
  keeps one invariant, `Consistent`: replaying its log through a model of
  the shell's bookkeeping never performs an illegal call (ADD of a
  registered icon, MODIFY or SETVERSION of an unregistered one), and it ends
  in the state that the created flag claims.
- **The flyout** (`TrayIconFlyout`). One flag, `_isPopupAnimationPlaying`,
  guards both Show and Hide. IsOpen changes only when a storyboard
  completes, or at once when animations are off. Direction and placement are
  snapshotted when a show starts. The host window is placed at a corner of
  the work area, and the islands are laid out on a grid. The state machine is
  a value in `FlyoutMachine` (flyout_machine.dfy), and its lemmas are stated
  there. The class `Flyout.TrayIconFlyout` (flyout.dfy) keeps the fields the
  control has, and each method that changes the machine state ensures
  `Model() == FlyoutMachine.<Operation>(old(Model()), ...)`. The completion
  of a storyboard is the explicit method `CompleteAnimation`.
- **The island backdrop** (`TrayIconFlyoutIsland.UpdateBackdrop`). An island
  caches the last (taskbar light, colour prevalence) pair and recolours only
  when that pair changes. The rule is in `IslandBackdrop`
  (island_backdrop.dfy), and the class `Flyout.TrayIconFlyoutIsland` follows
  it.
- **Helpers.**
  - `ManualDefinitions`: SUCCEEDED, FAILED, LOWORD and HIWORD on
    two's-complement words.
  - `TransitionHelpers`: the four slide storyboards as descriptors (axis,
    key frames, duration, curve tag).
  - `BackdropColorHelpers`: the backdrop colours.
  - `FlyoutLayout`: the direction table, placement arithmetic, storyboard
    choice and grid tracks.
- **The sample's tray icon manager** (`TrayIconManager`,
  tray_icon_manager.dfy). It shows the icon, subscribes to both clicks and
  toggles the flyout on each click. The toggle is specified on the flyout's
  state machine.

Every source path below is relative to the repository root. WPF sizes and
coordinates, which are doubles, are integers here. The sizes the
environment supplies are parameters of the operations that read them: the
control's `DesiredSize` (measured by Show, which keeps it for placement and
the reveal; read afresh by Hide, which measures nothing), the primary
screen's work area, and the taskbar theme from the registry and the UI
settings.

## Model

| member | source | states |
|---|---|---|
| BackdropColorHelpers.GetDarkBackgroundColor | src/TrayIconFlyout.Wpf/Helpers/BackdropColorHelpers.cs:13-16 | the dark backdrop is the opaque grey with every channel 0x1C |
| BackdropColorHelpers.GetLightBackgroundColor | src/TrayIconFlyout.Wpf/Helpers/BackdropColorHelpers.cs:18-21 | the light backdrop is the opaque grey with every channel 0xEE |
| BackdropColorHelpers.GetAccentedBackgroundColor | src/TrayIconFlyout.Wpf/Helpers/BackdropColorHelpers.cs:23-31 | the accent backdrop copies A, R, G and B unchanged from the system's AccentDark2 colour |
| BackdropColorHelpers.NeutralBackdropsOpaqueAndDistinct | src/TrayIconFlyout.Wpf/Helpers/BackdropColorHelpers.cs:13-21 | both neutral backdrops are fully opaque, and they differ from each other |
| ManualDefinitions.FailedIsNotSucceeded | src/TrayIconFlyout.Wpf/Helpers/ManualDefinitions.cs:11-21 | SUCCEEDED holds iff hr >= 0; FAILED holds iff SUCCEEDED does not |
| ManualDefinitions.AsUnsigned | src/TrayIconFlyout.Wpf/Helpers/ManualDefinitions.cs:23-33 | the cast to nuint lies in [0, 2^64) and agrees with the signed value modulo 2^64 |
| ManualDefinitions.LOWORD | src/TrayIconFlyout.Wpf/Helpers/ManualDefinitions.cs:23-27 | the masked unsigned value is the signed argument modulo 2^16, so it is in [0, 65535] |
| ManualDefinitions.HIWORD | src/TrayIconFlyout.Wpf/Helpers/ManualDefinitions.cs:29-33 | the unsigned value shifted right by 16 and masked is the signed argument modulo 2^32, divided by 2^16 |
| ManualDefinitions.WordsRecompose | src/TrayIconFlyout.Wpf/Helpers/ManualDefinitions.cs:23-33 | for 0 <= l < 2^32, HIWORD(l) * 65536 + LOWORD(l) == l |
| TransitionHelpers.GetWindows11BottomToTopTransitionStoryboard | src/TrayIconFlyout.Wpf/Helpers/TransitionHelpers.cs:12-36 | a single animation of TranslateY: a discrete key frame at 0 ms holding `from`, then a reveal-spline key frame at 267 ms reaching `to` |
| TransitionHelpers.GetWindows11TopToBottomTransitionStoryboard | src/TrayIconFlyout.Wpf/Helpers/TransitionHelpers.cs:38-62 | the same shape on TranslateY, with the conceal spline, ending at 200 ms |
| TransitionHelpers.GetWindows11RightToLeftTransitionStoryboard | src/TrayIconFlyout.Wpf/Helpers/TransitionHelpers.cs:64-88 | the same shape on TranslateX, with the reveal spline, ending at 167 ms |
| TransitionHelpers.GetWindows11LeftToRightTransitionStoryboard | src/TrayIconFlyout.Wpf/Helpers/TransitionHelpers.cs:90-114 | the same shape on TranslateX, with the conceal spline, ending at 167 ms |
| TransitionHelpers.TransitionFamiliesConsistent | src/TrayIconFlyout.Wpf/Helpers/TransitionHelpers.cs:12-114 | both opening storyboards share the reveal spline and both closing ones the conceal spline; the horizontal pair lasts 167 ms both ways, and the vertical pair 267 ms up and 200 ms down |
| FlyoutLayout.GetTranslateTransformInfo | src/TrayIconFlyout.Wpf/TrayIconFlyout.cs:199-209 | the axis is vertical iff the direction is Up or Down; the offset is the height or width along that axis, non-negative for Up and Left and non-positive for Down and Right |
| FlyoutLayout.OppositeDirectionsMirror | src/TrayIconFlyout.Wpf/TrayIconFlyout.cs:203-206 | Up and Down share an axis and have opposite offsets, and so do Left and Right |
| FlyoutLayout.PrePositioned | src/TrayIconFlyout.Wpf/TrayIconFlyout.cs:133-142 | before an animated show, a vertical slide sets X = 0 and Y = offset, and a horizontal slide sets X = offset and Y = 0 |
| FlyoutLayout.StoryboardsMirror | src/TrayIconFlyout.Wpf/TrayIconFlyout.cs:154-189 | the opening storyboard animates the slide axis from the pre-positioned offset to 0 with the reveal spline; the closing one animates the same axis from 0 back to that offset with the conceal spline |
| FlyoutLayout.FlyoutRegion | src/TrayIconFlyout.Wpf/TrayIconFlyout.cs:220-244 | the host's size is the desired size; each corner placement puts the matching corner of the host on that corner of the work area; Custom puts the host's top-left corner on the custom location |
| FlyoutLayout.CornerPlacementWithinWorkArea | src/TrayIconFlyout.Wpf/TrayIconFlyout.cs:222-237 | a flyout no larger than the work area, placed at a corner, lies inside the work area |
| FlyoutLayout.PlacementIndependence | src/TrayIconFlyout.Wpf/TrayIconFlyout.cs:220-241 | a custom placement ignores the work area, and a corner placement ignores the custom location |
| FlyoutLayout.LayoutTracks | src/TrayIconFlyout.Wpf/TrayIconFlyout.cs:265-297 | n islands produce 2n - 1 tracks (none for n = 0): even tracks are Auto and odd tracks are 12-unit gaps |
| FlyoutLayout.IslandCellsAreSeparateAutoTracks | src/TrayIconFlyout.Wpf/TrayIconFlyout.cs:265-297 | every island's track is an Auto track of the grid; two islands never share a cell; a gap track follows each island except the last |
| IslandBackdrop.BackdropColor | src/TrayIconFlyout.Wpf/TrayIconFlyoutIsland.cs:73-77 | colour prevalence gives the accent colour; otherwise the colour is the light grey iff the taskbar is light, and the dark grey iff it is not |
| IslandBackdrop.UpdatedBackdrop | src/TrayIconFlyout.Wpf/TrayIconFlyoutIsland.cs:63-82 | disabled: the border collapses and nothing else changes (cache included). Enabled: the border is visible, the cache holds the current pair, and the background is reassigned exactly when the pair differs from the cached one |
| IslandBackdrop.UpdateIdempotent | src/TrayIconFlyout.Wpf/TrayIconFlyoutIsland.cs:58-83 | a second update with the same inputs changes nothing |
| IslandBackdrop.FreshIslandRecolours | src/TrayIconFlyout.Wpf/TrayIconFlyoutIsland.cs:26-77 | an island with an empty cache recolours on its first enabled update, whatever the theme |
| IslandBackdrop.UpdatePreservesCoherent | src/TrayIconFlyout.Wpf/TrayIconFlyoutIsland.cs:67-77 | while the accent colour is fixed, the background always has the colour of the cached pair, so skipping a recolour never leaves a stale colour |
| IslandBackdrop.AccentChangeNotPickedUp | src/TrayIconFlyout.Wpf/TrayIconFlyoutIsland.cs:67-74 | the accent colour is not part of the cache key: with prevalence on and the same pair, a new accent colour is not applied |
| IslandBackdrop.DisableThenEnableKeepsColour | src/TrayIconFlyout.Wpf/TrayIconFlyoutIsland.cs:63-82 | turning the backdrop off and on under the same theme brings back the old colour without a recolour |
| FlyoutMachine.Initial | src/TrayIconFlyout.Wpf/TrayIconFlyout.cs:58-64 | a new flyout has its host, no animation and IsOpen false; its properties have the registered defaults |
| FlyoutMachine.StoryboardsEndWhereModelled | src/TrayIconFlyout.Wpf/TrayIconFlyout.cs:154-189 | once a storyboard completes, the animated coordinate holds its final value: the reveal leaves the slide axis at 0, and the conceal leaves it at the offset |
| FlyoutMachine.Show | src/TrayIconFlyout.Wpf/TrayIconFlyout.cs:90-167 | without a host, or while a storyboard plays, nothing changes. Otherwise: the template is applied; direction and placement are snapshotted and the measured size is kept; the host is shown. Animated: the flag is set, IsOpen is unchanged, the surface is at the pre-positioned offset and the reveal is pending. Not animated: IsOpen is true, the flag is clear and the offset is 0. The invariant is kept |
| FlyoutMachine.BeginShow | src/TrayIconFlyout.Wpf/TrayIconFlyout.cs:96-110 | the first half of Show: the flag is set and the template is applied; host and pending storyboard are unchanged |
| FlyoutMachine.Reveal | src/TrayIconFlyout.Wpf/TrayIconFlyout.cs:114-166 | the second half of Show: the host is visible afterwards, and the invariant holds when the first half was done |
| FlyoutMachine.Hide | src/TrayIconFlyout.Wpf/TrayIconFlyout.cs:175-197 | without a host or template, or while a storyboard plays, nothing changes. Animated: the flag is set and the conceal for the snapshotted direction, sliding by the current DesiredSize given to Hide, is pending. Not animated: the host hides, IsOpen is false and the flag is clear. The invariant is kept |
| FlyoutMachine.CompleteAnimation | src/TrayIconFlyout.Wpf/TrayIconFlyout.cs:301-324 | with nothing pending, nothing changes. Otherwise the flag clears and nothing is pending; IsOpen becomes true after the reveal (host unchanged), or false after the conceal (host hidden). The invariant is kept |
| FlyoutMachine.Dispose | src/TrayIconFlyout.Wpf/TrayIconFlyout.cs:333-343 | the host is closed (logged) if attached, and forgotten; nothing else changes |
| FlyoutMachine.InitialIsHidden | src/TrayIconFlyout.Wpf/TrayIconFlyout.cs:58-64 | a new flyout satisfies the invariant and is Hidden |
| FlyoutMachine.ReentrancyGuard | src/TrayIconFlyout.Wpf/TrayIconFlyout.cs:90-197 | while showing or hiding, Show, Hide and loss of focus all leave the state unchanged |
| FlyoutMachine.AnimatedCycle | src/TrayIconFlyout.Wpf/TrayIconFlyout.cs:90-324 | Show, completion, Hide, completion, starting from Hidden: Showing, then Shown at offset 0 with the host at the placed bounds, then Hiding with IsOpen still true, then Hidden with the host hidden and the surface at the offset for the size current at Hide, which is the starting offset when the size did not change |
| FlyoutMachine.InstantCycle | src/TrayIconFlyout.Wpf/TrayIconFlyout.cs:144-196 | without animations, Show leaves the flyout Shown at offset 0 with the host visible, and Hide leaves it Hidden with the host hidden |
| FlyoutMachine.SnapshotIgnoresLaterChanges | src/TrayIconFlyout.Wpf/TrayIconFlyout.cs:101-189 | changing direction or placement after a show has started changes neither how the pending storyboard completes nor which conceal the next Hide starts |
| FlyoutMachine.ShowOnShownReplays | src/TrayIconFlyout.Wpf/TrayIconFlyout.cs:90-93 | Show has no IsOpen guard: on a shown flyout it plays the reveal again, and IsOpen stays true meanwhile |
| FlyoutMachine.DeactivationCloses | src/TrayIconFlyout.Wpf/TrayIconFlyout.cs:326-330 | losing focus while shown starts hiding (or hides at once) iff HideOnLostFocus is set; otherwise the flyout stays shown |
| FlyoutMachine.DisposeIsFinal | src/TrayIconFlyout.Wpf/TrayIconFlyout.cs:333-343 | a second Dispose does nothing, and a disposed flyout ignores Show, Hide and loss of focus; at most one host is ever closed |
| Flyout.TrayIconFlyoutIsland.constructor | src/TrayIconFlyout.Wpf/TrayIconFlyoutIsland.cs:24-38 | a new island has no owner, no template, a visible border with no background, and an empty cache |
| Flyout.TrayIconFlyoutIsland.OnApplyTemplate | src/TrayIconFlyout.Wpf/TrayIconFlyoutIsland.cs:41-51 | the template parts (border, presenter) exist afterwards |
| Flyout.TrayIconFlyoutIsland.SetOwner | src/TrayIconFlyout.Wpf/TrayIconFlyoutIsland.cs:53-56 | the owner is the given flyout |
| Flyout.TrayIconFlyoutIsland.UpdateBackdrop | src/TrayIconFlyout.Wpf/TrayIconFlyoutIsland.cs:58-83 | without an owner or a border nothing changes; otherwise the backdrop follows IslandBackdrop.UpdatedBackdrop with the owner's switch |
| Flyout.TrayIconFlyoutIsland.SetContent | src/TrayIconFlyout.Wpf/TrayIconFlyoutIsland.cs:85-89 | the content takes the value; the presenter takes it too iff it differs from the old content (the change callback runs on a change only), is a visual element, and the presenter exists |
| Flyout.TrayIconFlyoutIsland.HandleContentChanged | src/TrayIconFlyout.Wpf/TrayIconFlyoutIsland.cs:91-97 | the presenter takes the new content iff it is a visual element and the presenter exists; otherwise it keeps what it had |
| Flyout.TrayIconFlyout.constructor | src/TrayIconFlyout.Wpf/TrayIconFlyout.cs:58-64 | the state is FlyoutMachine.Initial(host), which includes the property defaults of src/TrayIconFlyout.Wpf/TrayIconFlyout.Properties.cs; there are no islands and the grid is empty |
| Flyout.TrayIconFlyout.OnApplyTemplate | src/TrayIconFlyout.Wpf/TrayIconFlyout.cs:67-80 | the template is applied, the transform is zero, and the grid holds exactly the islands, each laid out with this flyout as owner |
| Flyout.TrayIconFlyout.AttachTemplateParts | src/TrayIconFlyout.Wpf/TrayIconFlyout.cs:71-77 | the template parts exist and the root grid's transform is a fresh zero translation |
| Flyout.TrayIconFlyout.ApplyTemplate | src/TrayIconFlyout.Wpf/TrayIconFlyout.cs:96 | the first call runs OnApplyTemplate; later calls change nothing (grid and island cells included) |
| Flyout.TrayIconFlyout.Show | src/TrayIconFlyout.Wpf/TrayIconFlyout.cs:90-167 | the state becomes FlyoutMachine.Show of the old state. Guarded out: grid and islands are unchanged. Otherwise: a templated flyout keeps its grid, and a new template lays out every island; measuring applies the template of every island in the grid, and then every island's backdrop takes one update for the theme, so on a first show every island is recoloured by IslandBackdrop.UpdatedBackdrop with the flyout's switch |
| Flyout.TrayIconFlyout.ShowUnguarded | src/TrayIconFlyout.Wpf/TrayIconFlyout.cs:96-166 | Show past its guard: the state becomes FlyoutMachine.Reveal of FlyoutMachine.BeginShow of the old state; the layout, island-template and backdrop effects of Show |
| Flyout.TrayIconFlyout.FinishShow | src/TrayIconFlyout.Wpf/TrayIconFlyout.cs:108-166 | the islands in the grid get their templates and every island's backdrop takes one update; the state becomes FlyoutMachine.Reveal of the old state; the grid and the islands' cells are untouched |
| Flyout.TrayIconFlyout.BeginShow | src/TrayIconFlyout.Wpf/TrayIconFlyout.cs:96-110 | the state becomes FlyoutMachine.BeginShow of the old state; the layout is kept if the template existed and is laid out if not; the islands' backdrops are untouched |
| Flyout.TrayIconFlyout.MeasureAndUpdateBackdrop | src/TrayIconFlyout.Wpf/TrayIconFlyout.cs:108-112 | every island in the grid has its template afterwards, and then every island's backdrop takes exactly one update by the cache rule; the grid and the islands' cells are untouched |
| Flyout.TrayIconFlyout.ApplyIslandTemplates | src/TrayIconFlyout.Wpf/TrayIconFlyout.cs:108 | every island laid out in the grid has its template applied afterwards |
| Flyout.TrayIconFlyout.StartShowing | src/TrayIconFlyout.Wpf/TrayIconFlyout.cs:101-110 | the flag is set; direction and placement are snapshotted and the measured size kept; nothing else changes |
| Flyout.TrayIconFlyout.Reveal | src/TrayIconFlyout.Wpf/TrayIconFlyout.cs:114-166 | the state becomes FlyoutMachine.Reveal of the old state; the grid and the islands' cells are untouched |
| Flyout.TrayIconFlyout.PrePosition | src/TrayIconFlyout.Wpf/TrayIconFlyout.cs:127-148 | the transform is pre-positioned for the snapshotted direction when animated, or zero otherwise; the slide it returns is the one for that direction |
| Flyout.TrayIconFlyout.StartReveal | src/TrayIconFlyout.Wpf/TrayIconFlyout.cs:152-166 | the host is shown; the reveal for the given slide becomes pending, or without animations IsOpen is set and the flag cleared |
| Flyout.TrayIconFlyout.Hide | src/TrayIconFlyout.Wpf/TrayIconFlyout.cs:175-197 | the state becomes FlyoutMachine.Hide of the old state and the current DesiredSize, and the invariant is kept |
| Flyout.TrayIconFlyout.CompleteAnimation | src/TrayIconFlyout.Wpf/TrayIconFlyout.cs:301-324 | the state becomes FlyoutMachine.CompleteAnimation of the old state, and the invariant is kept |
| Flyout.TrayIconFlyout.OpenAnimationCompleted | src/TrayIconFlyout.Wpf/TrayIconFlyout.cs:301-311 | the reveal's completion: the slide axis at 0, the flag clear, IsOpen true |
| Flyout.TrayIconFlyout.CloseAnimationCompleted | src/TrayIconFlyout.Wpf/TrayIconFlyout.cs:313-324 | the conceal's completion: the slide axis at the offset, the flag clear, IsOpen false, the host hidden |
| Flyout.TrayIconFlyout.FinishAnimation | src/TrayIconFlyout.Wpf/TrayIconFlyout.cs:309-322 | nothing is pending, the flag is clear and IsOpen takes the given value; nothing else changes |
| Flyout.TrayIconFlyout.HideHost | src/TrayIconFlyout.Wpf/TrayIconFlyout.cs:323 | the host, if any, is hidden; nothing else changes |
| Flyout.TrayIconFlyout.HostDeactivated | src/TrayIconFlyout.Wpf/TrayIconFlyout.cs:326-330 | the state becomes FlyoutMachine.HostDeactivated of the old state and the current DesiredSize: Hide iff HideOnLostFocus |
| Flyout.TrayIconFlyout.Dispose | src/TrayIconFlyout.Wpf/TrayIconFlyout.cs:333-343 | the state becomes FlyoutMachine.Dispose of the old state |
| Flyout.TrayIconFlyout.UpdateFlyoutRegion | src/TrayIconFlyout.Wpf/TrayIconFlyout.cs:211-245 | the host, if any, takes the bounds FlyoutLayout.FlyoutRegion gives for the snapshotted placement; nothing else changes |
| Flyout.TrayIconFlyout.UpdateBackdrop | src/TrayIconFlyout.Wpf/TrayIconFlyout.cs:247-254 | every island's backdrop takes exactly one update for the theme, by the cache rule |
| Flyout.TrayIconFlyout.SetIsBackdropEnabled | src/TrayIconFlyout.Wpf/TrayIconFlyout.Properties.cs:37-48 | the switch takes the value; the islands are untouched when it did not change, and updated once each when it did |
| Flyout.TrayIconFlyout.OnIsBackdropEnabledPropertyChanged | src/TrayIconFlyout.Wpf/TrayIconFlyout.Properties.cs:143-149 | equal old and new values leave every island unchanged; different values update every island's backdrop once |
| Flyout.TrayIconFlyout.AddIsland | src/TrayIconFlyout.Wpf/TrayIconFlyout.Properties.cs:16 | the island is appended to Islands; the grid is not rebuilt |
| Flyout.TrayIconFlyout.SetIslandsSource | src/TrayIconFlyout.Wpf/TrayIconFlyout.Properties.cs:21-32 | the property takes the value; a new island sequence replaces Islands in order and is laid out (when templated); the same value again, or a value that is not an island sequence, leaves islands and grid alone |
| Flyout.TrayIconFlyout.OnIslandsSourceChanged | src/TrayIconFlyout.Wpf/TrayIconFlyout.Properties.cs:130-141 | an island sequence replaces Islands in order and, once templated, the grid holds exactly those islands; any other value leaves islands and grid alone |
| Flyout.TrayIconFlyout.ReplaceIslands | src/TrayIconFlyout.Wpf/TrayIconFlyout.Properties.cs:135-138 | after clearing and re-adding, Islands equals the new sequence |
| Flyout.TrayIconFlyout.UpdateIslands | src/TrayIconFlyout.Wpf/TrayIconFlyout.cs:256-299 | without a template nothing changes; otherwise the grid holds exactly the islands in order, each in cell (2i, 0) or (0, 2i) with this flyout as owner, with the tracks of FlyoutLayout.LayoutTracks along the orientation and none across |
| Flyout.TrayIconFlyout.LayOutIslands | src/TrayIconFlyout.Wpf/TrayIconFlyout.cs:261-298 | after clearing the grid and running the loop, every island is laid out as UpdateIslands states |
| Flyout.TrayIconFlyout.ClearGrid | src/TrayIconFlyout.Wpf/TrayIconFlyout.cs:261-263 | the grid has no children and no row or column definitions |
| Flyout.TrayIconFlyout.PlaceNext | src/TrayIconFlyout.Wpf/TrayIconFlyout.cs:267-297 | one loop iteration: the islands before `index` keep their places and island `index` joins them |
| Flyout.TrayIconFlyout.LayOutIsland | src/TrayIconFlyout.Wpf/TrayIconFlyout.cs:272-296 | island `index` gets an Auto track, cell (2 index, 0) or (0, 2 index), this flyout as owner, and a gap track unless it is the last |
| NotifyIconProtocol.CreateOrModify | src/TrayIconFlyout.Wpf/SystemTrayIcon.cs:135-171 | a hidden icon issues nothing; a visible icon ends created; only calls are appended; the properties and the event log are unchanged |
| NotifyIconProtocol.Delete | src/TrayIconFlyout.Wpf/SystemTrayIcon.cs:173-189 | the icon ends not created; exactly one call is appended iff it was created |
| NotifyIconProtocol.SetVisible | src/TrayIconFlyout.Wpf/SystemTrayIcon.cs:36-51 | visibility takes the value; tooltip and image are unchanged |
| NotifyIconProtocol.SetTooltip | src/TrayIconFlyout.Wpf/SystemTrayIcon.cs:54-66 | the tooltip takes the value; visibility and image are unchanged |
| NotifyIconProtocol.SetIcon | src/TrayIconFlyout.Wpf/SystemTrayIcon.cs:69-81 | the image takes the value; visibility and tooltip are unchanged |
| NotifyIconProtocol.HalfTowardZero | src/TrayIconFlyout.Wpf/SystemTrayIcon.cs:262-263 | C#'s int division by 2 truncates toward zero: for x >= 0, 2h <= x <= 2h + 1; for x < 0, 2h - 1 <= x <= 2h |
| NotifyIconProtocol.GetCenterPointOfTrayIcon | src/TrayIconFlyout.Wpf/SystemTrayIcon.cs:250-267 | a failed query gives the empty point; a successful one gives (right - width / 2, bottom - height / 2) with truncating division |
| NotifyIconProtocol.CenterPointInsideRect | src/TrayIconFlyout.Wpf/SystemTrayIcon.cs:257-266 | for a well-formed rectangle the centre lies inside it, at most one unit from the exact middle |
| NotifyIconProtocol.Dispatch | src/TrayIconFlyout.Wpf/SystemTrayIcon.cs:191-248 | the result is 0 for the callback message and WM_DESTROY and DefWindowProc's answer otherwise; at most one event is raised, appended after the old ones; the properties are unchanged |
| NotifyIconProtocol.InitialConsistent | src/TrayIconFlyout.Wpf/SystemTrayIcon.cs:97-106 | before any call, the icon agrees with the shell |
| NotifyIconProtocol.CreateOrModifyConsistent | src/TrayIconFlyout.Wpf/SystemTrayIcon.cs:135-171 | creating or modifying keeps the shell replay legal and in agreement with the created flag |
| NotifyIconProtocol.DeleteConsistent | src/TrayIconFlyout.Wpf/SystemTrayIcon.cs:173-189 | deleting keeps the icon consistent with the shell |
| NotifyIconProtocol.SetVisibleConsistent | src/TrayIconFlyout.Wpf/SystemTrayIcon.cs:36-51 | the visibility setter keeps the icon consistent with the shell |
| NotifyIconProtocol.SetTooltipConsistent | src/TrayIconFlyout.Wpf/SystemTrayIcon.cs:54-66 | the tooltip setter keeps the icon consistent with the shell |
| NotifyIconProtocol.SetIconConsistent | src/TrayIconFlyout.Wpf/SystemTrayIcon.cs:69-81 | the image setter keeps the icon consistent with the shell |
| NotifyIconProtocol.DispatchConsistent | src/TrayIconFlyout.Wpf/SystemTrayIcon.cs:191-248 | every window message keeps the icon consistent with the shell, including the taskbar-restart re-registration |
| NotifyIconProtocol.CreateOrModifyIssues | src/TrayIconFlyout.Wpf/SystemTrayIcon.cs:137-168 | hidden: nothing is issued. Visible and not created: exactly DELETE, ADD, SETVERSION (version 4). Created: exactly one MODIFY. Every call carries the icon's GUID, window, image and tooltip |
| NotifyIconProtocol.DeleteIssues | src/TrayIconFlyout.Wpf/SystemTrayIcon.cs:175-188 | one DELETE for the icon's GUID iff it was created, and nothing otherwise; a second delete changes nothing |
| NotifyIconProtocol.SetVisibleBehaviour | src/TrayIconFlyout.Wpf/SystemTrayIcon.cs:41-49 | the same value changes nothing; true to false deletes; false to true creates; setting the same value twice equals setting it once |
| NotifyIconProtocol.HideThenShowReRegisters | src/TrayIconFlyout.Wpf/SystemTrayIcon.cs:116-171 | hiding and re-showing a registered icon issues DELETE, DELETE, ADD, SETVERSION and ends created |
| NotifyIconProtocol.SettersDebounce | src/TrayIconFlyout.Wpf/SystemTrayIcon.cs:54-81 | setting the tooltip or image to its current value changes nothing; a new value on a registered, visible icon issues exactly one MODIFY carrying it; a hidden icon issues nothing |
| NotifyIconProtocol.CallbackMessageRaises | src/TrayIconFlyout.Wpf/SystemTrayIcon.cs:195-228 | an event is raised iff the low word is mouse-move, left-up or right-up and the centre point is not empty; it carries that kind and point; foreground request and rectangle query come first; other low words change nothing |
| NotifyIconProtocol.FailedQueryRaisesNothing | src/TrayIconFlyout.Wpf/SystemTrayIcon.cs:199-266 | a failed rectangle query never raises an event |
| NotifyIconProtocol.DestroyOnlyDeletes | src/TrayIconFlyout.Wpf/SystemTrayIcon.cs:230-235 | WM_DESTROY only deletes the icon and returns 0 |
| NotifyIconProtocol.TaskbarRestartReRegisters | src/TrayIconFlyout.Wpf/SystemTrayIcon.cs:236-245 | "TaskbarCreated" deletes a created icon, then registers a visible one afresh (DELETE, ADD, SETVERSION), then calls DefWindowProc and returns its answer |
| NotifyIconProtocol.OtherMessagesForwarded | src/TrayIconFlyout.Wpf/SystemTrayIcon.cs:236-244 | any other message only goes to DefWindowProc, whose answer is returned |
| NotifyIconProtocol.DeliveredForwards | src/TrayIconFlyout.Wpf/SystemTrayIcon.cs:236-244 | a run of messages that are neither the callback message, WM_DESTROY nor the taskbar-restart message appends one DefWindowProc call per message, in order, and changes nothing else |
| NotifyIconProtocol.DestroyWindowDeletes | src/TrayIconFlyout.Wpf/SystemTrayIcon.cs:230-244 | the two messages DestroyWindow sends: WM_DESTROY deletes the icon, then WM_NCDESTROY goes to DefWindowProc; the icon ends unregistered |
| NotifyIconProtocol.GuidText | src/TrayIconFlyout.Wpf/SystemTrayIconWindow.cs:33 | the GUID's text has 36 characters, with hyphens at 8, 13, 18 and 23 |
| NotifyIconProtocol.GuidTextInjective | src/TrayIconFlyout.Wpf/SystemTrayIconWindow.cs:33 | two different GUIDs never have the same text |
| TrayIcon.WindowClassName | src/TrayIconFlyout.Wpf/SystemTrayIconWindow.cs:33 | the class name is "SystemTrayIcon_" followed by the 36-character GUID text |
| TrayIcon.WindowClassNamesDistinct | src/TrayIconFlyout.Wpf/SystemTrayIconWindow.cs:33 | icons with different ids register different window classes |
| TrayIcon.SystemTrayIconWindow.constructor | src/TrayIconFlyout.Wpf/SystemTrayIconWindow.cs:29-66 | the window keeps the created handle and the class name for the id, and has not yet been destroyed |
| TrayIcon.SystemTrayIconWindow.Create | src/TrayIconFlyout.Wpf/SystemTrayIconWindow.cs:51-65 | creation fails exactly when CreateWindowEx answered the default handle; otherwise a fresh window with that handle |
| TrayIcon.SystemTrayIconWindow.WindowProc | src/TrayIconFlyout.Wpf/SystemTrayIconWindow.cs:68-71 | every message goes unchanged to the owning icon, and its answer is returned |
| TrayIcon.SystemTrayIconWindow.Deliver | src/TrayIconFlyout.Wpf/SystemTrayIconWindow.cs:68-71 | the messages a native call sends reach the owning icon one after another: its state becomes NotifyIconProtocol.Delivered of the old state and the run, and it stays consistent |
| TrayIcon.SystemTrayIconWindow.Dispose | src/TrayIconFlyout.Wpf/SystemTrayIconWindow.cs:73-82 | a live handle is destroyed once and reset to the default handle, and the owner is forgotten; destroying it delivers WM_DESTROY and then WM_NCDESTROY to the owning icon, whose state becomes NotifyIconProtocol.Delivered of those two messages (a Delete, then one DefWindowProc call); a second call destroys nothing |
| TrayIcon.SystemTrayIcon.constructor | src/TrayIconFlyout.Wpf/SystemTrayIcon.cs:97-109 | fields are initialised and the window points back to the icon before CreateWindowEx returns, so the creation messages it sends (WM_GETMINMAXINFO, WM_NCCREATE, WM_NCCALCSIZE, WM_CREATE) each reach DefWindowProc through the icon; then CreateOrModify runs; the icon is consistent with the shell |
| TrayIcon.SystemTrayIcon.Create | src/TrayIconFlyout.Wpf/SystemTrayIcon.cs:97-109 | construction fails iff the window handle is the default one; otherwise a fresh, consistent icon linked to its window, whose state is CreateOrModify of the initial state after one DefWindowProc call per creation message |
| TrayIcon.SystemTrayIcon.Show | src/TrayIconFlyout.Wpf/SystemTrayIcon.cs:116-121 | SetVisible(true) on the state; returns the same instance |
| TrayIcon.SystemTrayIcon.Hide | src/TrayIconFlyout.Wpf/SystemTrayIcon.cs:126-131 | SetVisible(false) on the state; returns the same instance |
| TrayIcon.SystemTrayIcon.SetIsVisible | src/TrayIconFlyout.Wpf/SystemTrayIcon.cs:36-51 | the state becomes NotifyIconProtocol.SetVisible of the old state; consistency is kept |
| TrayIcon.SystemTrayIcon.SetTooltip | src/TrayIconFlyout.Wpf/SystemTrayIcon.cs:54-66 | the state becomes NotifyIconProtocol.SetTooltip of the old state; consistency is kept |
| TrayIcon.SystemTrayIcon.SetIcon | src/TrayIconFlyout.Wpf/SystemTrayIcon.cs:69-81 | the state becomes NotifyIconProtocol.SetIcon of the old state; consistency is kept |
| TrayIcon.SystemTrayIcon.CreateOrModifyNotifyIcon | src/TrayIconFlyout.Wpf/SystemTrayIcon.cs:135-171 | the state becomes NotifyIconProtocol.CreateOrModify of the old state; consistency is kept |
| TrayIcon.SystemTrayIcon.DeleteNotifyIcon | src/TrayIconFlyout.Wpf/SystemTrayIcon.cs:173-189 | the state becomes NotifyIconProtocol.Delete of the old state; consistency is kept |
| TrayIcon.SystemTrayIcon.GetCenterPointOfTrayIcon | src/TrayIconFlyout.Wpf/SystemTrayIcon.cs:250-267 | logs one rectangle query for the icon's GUID and returns the centre point of its answer |
| TrayIcon.SystemTrayIcon.RaiseAtCenter | src/TrayIconFlyout.Wpf/SystemTrayIcon.cs:199-225 | logs the foreground request and the rectangle query, then raises the event at the centre point unless that point is empty |
| TrayIcon.SystemTrayIcon.WindowProc | src/TrayIconFlyout.Wpf/SystemTrayIcon.cs:191-248 | the state and result are NotifyIconProtocol.Dispatch of the old state and the message; consistency is kept |
| TrayIcon.SystemTrayIcon.Dispose | src/TrayIconFlyout.Wpf/SystemTrayIcon.cs:269-272 | the hidden window is destroyed and forgets the icon; with a live handle, WM_DESTROY and WM_NCDESTROY are delivered, so the state becomes a Delete of the old state followed by one DefWindowProc call for WM_NCDESTROY; consistency is kept |
| TrayIconManager.ReleasedIsUnregistered | samples/TrayIconFlyout.Wpf.Sample/TrayIconManager.cs:52-55 | after the manager's Dispose the icon is hidden, and it is no longer registered with the shell when it was visible or its window was live; with a live window the last call is DefWindowProc for WM_NCDESTROY |
| TrayIconManager.DisposeSteps | samples/TrayIconFlyout.Wpf.Sample/TrayIconManager.cs:52-56 | with an icon, the first four steps are hide, unsubscribe left, unsubscribe right, dispose icon; the flyout's disposal is last iff there is a flyout |
| TrayIconManager.ClickIgnoredWhileAnimating | samples/TrayIconFlyout.Wpf.Sample/TrayIconManager.cs:33-36 | a click while a storyboard plays changes nothing: during the reveal IsOpen is false and Show refuses; during the conceal IsOpen is true and Hide refuses |
| TrayIconManager.ClickFlips | samples/TrayIconFlyout.Wpf.Sample/TrayIconManager.cs:33-36 | on a settled flyout, a click followed by its storyboard's completion flips IsOpen and leaves the flyout settled |
| TrayIconManager.ClicksAlternate | samples/TrayIconFlyout.Wpf.Sample/TrayIconManager.cs:28-48 | after n settled clicks the flyout is settled, and open iff it started open with n even or started closed with n odd |
| TrayIconManager.ClickAfterDisposeInert | samples/TrayIconFlyout.Wpf.Sample/TrayIconManager.cs:28-57 | after the flyout is disposed, a click changes nothing |
| TrayIconManager.TrayIconManager.constructor | samples/TrayIconFlyout.Wpf.Sample/TrayIconManager.cs:10-16 | the single instance starts with no icon, no flyout and no subscriptions |
| TrayIconManager.TrayIconManager.Initialize | samples/TrayIconFlyout.Wpf.Sample/TrayIconManager.cs:18-26 | keeps the flyout and the icon, applies SetVisible(true) to the icon, and subscribes to both clicks, in that order |
| TrayIconManager.TrayIconManager.Raise | src/TrayIconFlyout.Wpf/SystemTrayIcon.cs:208-225 | a click the manager subscribed to toggles the flyout; an event it did not subscribe to leaves the flyout unchanged |
| TrayIconManager.TrayIconManager.OnLeftClicked | samples/TrayIconFlyout.Wpf.Sample/TrayIconManager.cs:28-37 | with a flyout, its state becomes Hide of the old state when open and Show when closed |
| TrayIconManager.TrayIconManager.OnRightClicked | samples/TrayIconFlyout.Wpf.Sample/TrayIconManager.cs:39-48 | the same toggle as the left click |
| TrayIconManager.TrayIconManager.ToggleFlyout | samples/TrayIconFlyout.Wpf.Sample/TrayIconManager.cs:30-36 | nothing without a flyout; otherwise Hide when open and Show when closed |
| TrayIconManager.TrayIconManager.ToggleOpen | samples/TrayIconFlyout.Wpf.Sample/TrayIconManager.cs:33-36 | the flyout's state becomes Toggle of the old state (Hide when open, Show when closed), and its invariant is kept |
| TrayIconManager.TrayIconManager.Dispose | samples/TrayIconFlyout.Wpf.Sample/TrayIconManager.cs:50-57 | steps follow DisposeSteps; the icon's state becomes Released of the old one (hidden, then deleted by WM_DESTROY, then WM_NCDESTROY forwarded) and its window is disposed; both handlers are unsubscribed; the flyout is disposed last |
| TrayIconManager.TrayIconManager.ReleaseIcon | samples/TrayIconFlyout.Wpf.Sample/TrayIconManager.cs:52-55 | hide, unsubscribe left, unsubscribe right, dispose, in that order; the icon's state becomes Released of the old one |

## Left out

- Native calls. Shell_NotifyIcon, Shell_NotifyIconGetRect,
  SetForegroundWindow and DefWindowProc are recorded, in order, in the
  icon's log, and DestroyWindow in the window's. RegisterClassEx is not
  recorded. What CreateWindowEx, RegisterWindowMessage, the shell and
  DefWindowProc answer are parameters. Beyond the shell's bookkeeping that
  `Consistent` replays, their effects in the shell and the window manager
  are not modelled.
- Messages sent by native calls. DestroyWindow's WM_DESTROY and
  WM_NCDESTROY are delivered to the window procedure. So are the messages
  CreateWindowEx sends before it returns, which are a parameter limited to
  messages the icon only forwards (not the callback message, WM_DESTROY or
  the taskbar-restart message). What the window procedure answers them goes
  back to the window manager, which is not modelled, and DefWindowProc's
  answer to them is taken as 0.
- The taskbar theme comes from the registry, and the accent colour from
  UISettings. Both are the `TaskbarTheme` parameter of Show and
  UpdateBackdrop. src/TrayIconFlyout.Wpf/Helpers/GeneralHelpers.cs is not
  part of this model.
- WPF internals are left out:
  - Measure and UpdateLayout, except that measuring applies the template of
    every island in the grid. `DesiredSize` is the `desired` parameter, and
    `SystemParameters.WorkArea` is `workArea`.
  - Template lookup, and the InvalidOperationException thrown for a missing
    template part (the template is assumed well-formed).
  - Real-time storyboard playback and the spline control points. Curves are
    the tags Reveal and Conceal, and completion is `CompleteAnimation`.
  - Storyboard freezing and the unsubscription of the Completed handler.
  - The sender check in the Completed handlers.
- Doubles are integers. The `(int)transformSize` casts in Show and Hide are
  therefore the identity.
- `szTip` is limited to 128 characters by the shell structure. The model
  passes the tooltip unchanged.
- Flyout.TrayIconFlyout.Valid: islands are required to be distinct (no
  island twice in Islands), and AddIsland and SetIslandsSource require it of
  what they add. WPF refuses to add one visual to a grid twice, which the
  model does not represent. Null entries in an island source are not
  represented either.
- An island's owner is a weak reference in the control; here it is a plain
  reference, so an owner that was garbage-collected is not modelled.
- PopupDirection is registered with type Orientation and default Vertical in
  src/TrayIconFlyout.Wpf/TrayIconFlyout.Properties.cs:85-96, but
  TrayIconFlyout.cs reads it as a TrayIconFlyoutPopupDirection. The model
  follows TrayIconFlyout.cs, with the enum's first value, Up, as the default.
- The placement enum in src/TrayIconFlyout.Wpf/TrayIconFlyoutPlacementMode.cs
  has four `...EdgeAligned...` values. TrayIconFlyout.cs uses five
  (TopLeft, TopRight, BottomLeft, BottomRight, Custom), and the model
  follows TrayIconFlyout.cs.
- `TrayIconFlyoutPlacementLocation`, used by the Custom placement, is not
  declared in the files of this model. It is a settings field defaulting to
  (0, 0).
- Dependency-property setters for IsTransitionAnimationEnabled,
  HideOnLostFocus, PopupDirection, IslandsOrientation and placement are
  plain field writes. No change callback is registered for them in the
  source.
- Changing IslandsOrientation does not re-lay out the grid, and neither does
  adding to Islands directly. The source registers no callback for either,
  and the model does the same.
- IslandsSource change detection uses value equality of the source value.
  WPF compares objects by reference.
- The island's duplicate CornerRadius property
  (src/TrayIconFlyout.Wpf/TrayIconFlyoutIsland.Properties.cs) carries no
  behaviour.
- Enum-only and argument-only files appear only as datatypes:
  - TrayIconFlyoutPopupDirection.cs
  - TrayIconFlyoutPlacementMode.cs
  - MouseEventReceivedEventArgs.cs
  - TrayIconFlyoutAnimationMode.cs, which is unused.
- The event arguments' sender is not modelled.
- TrayIconManager.TrayIconManager.Initialize: takes the flyout as a
  parameter, because the sample's MainTrayIconFlyout, MainWindow, App and
  view model are not part of this model. The Lazy singleton is the
  constructor.
- TrayIconManager.TrayIconManager.Raise: the event subscriptions are two
  flags, and raising an event calls the subscribed handler. Multicast
  delegates are not modelled.
- Flyout.TrayIconFlyout.Show: there is no IsOpen guard, so a shown flyout
  replays its reveal. This is what the code does
  (FlyoutMachine.ShowOnShownReplays), and it is not treated as a defect.
- IslandBackdrop.AccentChangeNotPickedUp: the accent colour is not part of
  the island's cache key, so a new accent colour under unchanged
  (light, prevalence) is not applied until the pair changes. This records
  the source's behaviour.
- UI-thread dispatch is single-threaded, and events are appended to logs;
  concurrency is not modelled.
