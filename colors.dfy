/** Thread colors. A QColor is compared by its RGB value and is saved and restored
    as an `[r, g, b]` triple, so a color is modelled as that triple. */
module Colors {

  /** One 8-bit color channel. */
  newtype Channel = x: int | 0 <= x < 256

  datatype Color = Rgb(red: Channel, green: Channel, blue: Channel)

  /** `QColor("lightgrey")`: the color every knot input starts with (the "undefined" color). */
  const Lightgrey: Color := Rgb(211, 211, 211)

  const Black: Color := Rgb(0, 0, 0)
  const Red: Color := Rgb(255, 99, 71)
  const Green: Color := Rgb(0, 255, 0)
  const Blue: Color := Rgb(0, 191, 255)
  const Cyan: Color := Rgb(0, 255, 255)
  const Magenta: Color := Rgb(238, 130, 238)
  const Yellow: Color := Rgb(255, 255, 0)
  const Darkgrey: Color := Rgb(169, 169, 169)

  /** The eight preset start colors, in the order the color bar cycles through them. */
  const Palette: seq<Color> := [Red, Green, Blue, Black, Cyan, Magenta, Yellow, Darkgrey]

  /** `f[j % 8]`: the palette entry for counter `j`. */
  function PaletteColor(j: nat): (c: Color)
    ensures c in Palette
    ensures c != Lightgrey
  {
    Palette[j % 8]
  }
}
