/**
 * The backdrop rule of a flyout island: the border behind the island's
 * content is shown or collapsed with the flyout's backdrop switch, and is
 * recoloured only when the taskbar's (light, colour prevalence) pair differs
 * from the pair seen at the previous update.
 */
module IslandBackdrop {

  import opened Wrappers
  import opened BackdropColorHelpers

  datatype Visibility = Visible | Collapsed

  /** What the system reports at an update: two registry values and the accent colour. */
  datatype TaskbarTheme = TaskbarTheme(isLight: bool, isColorPrevalence: bool, accentDark2: Color)

  /**
   * The backdrop border (its visibility and its background, None until one is
   * assigned) together with the island's cache of the last pair it saw.
   */
  datatype Backdrop = Backdrop(visibility: Visibility, background: Option<Color>,
                               lastLight: Option<bool>, lastPrevalence: Option<bool>)

  /** A newly templated island: visible border, no background, empty cache. */
  const FreshBackdrop: Backdrop := Backdrop(Visible, None, None, None)

  /** The colour for a theme: the accent under colour prevalence, otherwise the light or dark neutral. */
  function BackdropColor(theme: TaskbarTheme): (c: Color)
    ensures theme.isColorPrevalence ==> c == GetAccentedBackgroundColor(theme.accentDark2)
    ensures !theme.isColorPrevalence ==> (IsOpaqueGrey(c, 0xEE) <==> theme.isLight)
    ensures !theme.isColorPrevalence ==> (IsOpaqueGrey(c, 0x1C) <==> !theme.isLight)
  {
    if theme.isColorPrevalence then GetAccentedBackgroundColor(theme.accentDark2)
    else if theme.isLight then GetLightBackgroundColor()
    else GetDarkBackgroundColor()
  }

  /** The pair differs from the cached one (an empty cache differs from every pair). */
  predicate ShouldRecolor(b: Backdrop, theme: TaskbarTheme)
  {
    b.lastLight != Some(theme.isLight) || b.lastPrevalence != Some(theme.isColorPrevalence)
  }

  /**
   * One backdrop update of an island that has a live owner and a border.
   * Disabled: the border collapses and nothing else changes. Enabled: the
   * border shows, the cache takes the current pair, and the background is
   * reassigned exactly when the pair changed.
   */
  function UpdatedBackdrop(b: Backdrop, enabled: bool, theme: TaskbarTheme): (r: Backdrop)
    ensures !enabled ==> r == b.(visibility := Collapsed)
    ensures enabled ==> && r.visibility == Visible
                        && r.lastLight == Some(theme.isLight)
                        && r.lastPrevalence == Some(theme.isColorPrevalence)
    ensures enabled && ShouldRecolor(b, theme) ==> r.background == Some(BackdropColor(theme))
    ensures enabled && !ShouldRecolor(b, theme) ==> r.background == b.background
  {
    if enabled then
      var recolor := ShouldRecolor(b, theme);
      var cached := b.(visibility := Visible,
                       lastLight := Some(theme.isLight),
                       lastPrevalence := Some(theme.isColorPrevalence));
      if recolor then cached.(background := Some(BackdropColor(theme))) else cached
    else
      b.(visibility := Collapsed)
  }

  /** Repeating an update with the same inputs changes nothing more. */
  lemma UpdateIdempotent(b: Backdrop, enabled: bool, theme: TaskbarTheme)
    ensures UpdatedBackdrop(UpdatedBackdrop(b, enabled, theme), enabled, theme) == UpdatedBackdrop(b, enabled, theme)
  {
  }

  /** A fresh island recolours on its first enabled update, whatever the theme. */
  lemma FreshIslandRecolours(theme: TaskbarTheme)
    ensures UpdatedBackdrop(FreshBackdrop, true, theme).background == Some(BackdropColor(theme))
  {
  }

  /**
   * The border's colour agrees with the cached pair: once a pair is cached,
   * the background is the colour of that pair (for the accent colour given).
   */
  predicate Coherent(b: Backdrop, accentDark2: Color)
  {
    && (b.lastLight.Some? <==> b.lastPrevalence.Some?)
    && (b.lastLight.Some? ==>
          b.background == Some(BackdropColor(TaskbarTheme(b.lastLight.value, b.lastPrevalence.value, accentDark2))))
  }

  /**
   * While the accent colour stays the same, every update keeps the background
   * coherent with the cache, so skipping a recolour never leaves a stale colour.
   */
  lemma UpdatePreservesCoherent(b: Backdrop, enabled: bool, theme: TaskbarTheme)
    requires Coherent(b, theme.accentDark2)
    ensures Coherent(UpdatedBackdrop(b, enabled, theme), theme.accentDark2)
  {
  }

  /**
   * The accent colour is not part of the cache key: with colour prevalence on
   * and the same pair, a changed accent colour is not picked up.
   */
  lemma AccentChangeNotPickedUp(b: Backdrop, theme: TaskbarTheme, newAccent: Color)
    requires theme.isColorPrevalence && newAccent != theme.accentDark2
    requires b.lastLight == Some(theme.isLight) && b.lastPrevalence == Some(true)
    requires b.background == Some(BackdropColor(theme))
    ensures var r := UpdatedBackdrop(b, true, theme.(accentDark2 := newAccent));
            r.background == b.background && r.background != Some(BackdropColor(theme.(accentDark2 := newAccent)))
  {
  }

  /**
   * Switching the backdrop off and on again keeps the cache, so the colour
   * comes back without a recolour when the theme has not changed.
   */
  lemma DisableThenEnableKeepsColour(b: Backdrop, theme: TaskbarTheme)
    requires b.lastLight == Some(theme.isLight) && b.lastPrevalence == Some(theme.isColorPrevalence)
    ensures var r := UpdatedBackdrop(UpdatedBackdrop(b, false, theme), true, theme);
            r.background == b.background && r.visibility == Visible
  {
  }
}
