/**
 * The smoke-curtain map style shared by both curtain scripts: one colour and
 * fill opacity per air-quality band, and four concentric circles per sample
 * whose radius grows and whose opacity fades outwards.
 */
module SmokeStyle {
  import opened Bands
  import opened PyMath

  /** Colour and fill opacity of each band's smoke. */
  function Palette(b: Band): (string, real) {
    match b
    case Excellent => ("#66ff66", 0.25)
    case Good => ("#ffff44", 0.45)
    case Moderate => ("#ffaa33", 0.55)
    case Poor => ("#ff4444", 0.65)
    case VeryPoor => ("#bb2222", 0.75)
  }

  /** Worse air is drawn with denser smoke: opacity strictly increases with the band, and stays in (0, 1). */
  lemma PaletteOpacityIncreasing(b1: Band, b2: Band)
    requires Rank(b1) < Rank(b2)
    ensures 0.0 < Palette(b1).1 < Palette(b2).1 < 1.0
  {
  }

  /** One circle of a curtain. */
  datatype Layer = Layer(radius: real, opacity: real)

  /** `radius_base = 25 + tvoc / 80`, in metres. */
  function RadiusBase(tvoc: real): real {
    25.0 + tvoc / 80.0
  }

  /** The four circles `i = 0..3`: radius `base·(1 + 0.25 i)`, opacity `opacity·(0.6 − 0.12 i)`. */
  function Layers(tvoc: real, opacity: real): (ls: seq<Layer>)
    ensures |ls| == 4
  {
    seq(4, i requires 0 <= i < 4 =>
      Layer(RadiusBase(tvoc) * (1.0 + i as real * 0.25), opacity * (0.6 - i as real * 0.12)))
  }

  /**
   * For any positive base radius (any TVOC above −2000 ppb) and positive band
   * opacity, the circles are nested with the innermost at the base radius, and
   * each outer circle is fainter but still visible.
   */
  lemma LayersNested(tvoc: real, opacity: real)
    requires tvoc > -2000.0 && opacity > 0.0
    ensures Layers(tvoc, opacity)[0].radius == RadiusBase(tvoc) > 0.0
    ensures forall i, j :: 0 <= i < j < 4 ==>
      Layers(tvoc, opacity)[i].radius < Layers(tvoc, opacity)[j].radius
      && Layers(tvoc, opacity)[i].opacity > Layers(tvoc, opacity)[j].opacity > 0.0
  {
    var ls := Layers(tvoc, opacity);
    var base := RadiusBase(tvoc);
    forall i, j | 0 <= i < j < 4
      ensures ls[i].radius < ls[j].radius && ls[i].opacity > ls[j].opacity > 0.0
    {
      assert ls[j].radius - ls[i].radius == base * ((j - i) as real * 0.25);
      MulPositive(base, (j - i) as real * 0.25);
      assert ls[i].opacity - ls[j].opacity == opacity * ((j - i) as real * 0.12);
      MulPositive(opacity, (j - i) as real * 0.12);
      MulPositive(opacity, 0.6 - j as real * 0.12);
    }
  }
}
