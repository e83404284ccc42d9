/** The colour types of the `palette` crate. The RGB <-> HSV conversions are
    library floating-point code and are left abstract: a `ColorModel` supplied
    by the caller. Only the hue normalisation used for classification is
    written out. */
module Palette {
  import opened Numbers

  datatype Rgb8 = Rgb8(red: u8, green: u8, blue: u8)

  /** `Hsv` with its hue in raw degrees (`RgbHue::into_raw_degrees`). */
  datatype Hsv = Hsv(hue: real, saturation: real, value: real)

  datatype ColorModel = ColorModel(toHsv: Rgb8 -> Hsv, toRgb8: Hsv -> Rgb8)

  /** `RgbHue::into_positive_degrees`: the angle brought into [0, 360). */
  function PositiveDegrees(deg: real): (r: real)
    ensures 0.0 <= r < 360.0
    ensures 0.0 <= deg < 360.0 ==> r == deg
  {
    var q := (deg / 360.0).Floor;
    deg - q as real * 360.0
  }

  /** Hue normalisation ignores whole turns. */
  lemma PositiveDegreesPeriodic(deg: real, turns: int)
    ensures PositiveDegrees(deg + turns as real * 360.0) == PositiveDegrees(deg)
  {
    var d := deg + turns as real * 360.0;
    var q := (deg / 360.0).Floor;
    assert d / 360.0 == deg / 360.0 + turns as real;
    assert (d / 360.0).Floor == q + turns;
  }
}
