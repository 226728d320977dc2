/**
 * The three backdrop colours an island can take: a dark neutral, a light
 * neutral, and a copy of the system's AccentDark2 colour.
 */
module BackdropColorHelpers {

  newtype byte = x: int | 0 <= x < 0x100

  /** `Color.FromArgb(a, r, g, b)`. */
  datatype Color = Color(a: byte, r: byte, g: byte, b: byte)

  /** A fully opaque grey whose three channels all equal `level`. */
  predicate IsOpaqueGrey(c: Color, level: byte)
  {
    c.a == 0xFF && c.r == level && c.g == level && c.b == level
  }

  function GetDarkBackgroundColor(): (c: Color)
    ensures IsOpaqueGrey(c, 0x1C)
  {
    Color(0xFF, 0x1C, 0x1C, 0x1C)
  }

  function GetLightBackgroundColor(): (c: Color)
    ensures IsOpaqueGrey(c, 0xEE)
  {
    Color(0xFF, 0xEE, 0xEE, 0xEE)
  }

  /**
   * The accent backdrop is rebuilt channel by channel from the system's
   * AccentDark2 colour, which the UI settings supply (an input here).
   */
  function GetAccentedBackgroundColor(accentDark2: Color): (c: Color)
    ensures c.a == accentDark2.a && c.r == accentDark2.r
    ensures c.g == accentDark2.g && c.b == accentDark2.b
  {
    Color(accentDark2.a, accentDark2.r, accentDark2.g, accentDark2.b)
  }

  /** Both neutral backdrops are opaque, and the light one differs from the dark one. */
  lemma NeutralBackdropsOpaqueAndDistinct()
    ensures GetDarkBackgroundColor().a == 0xFF && GetLightBackgroundColor().a == 0xFF
    ensures GetDarkBackgroundColor() != GetLightBackgroundColor()
  {
  }
}
