/**
 * The smoke-curtain map (`docs/scripts/mapa_cortina.py`): each sample with a
 * GPS fix is drawn as four concentric circles coloured by its TVOC band, and
 * the closing summary counts the samples per band interval.
 */
module SmokeCurtain {
  import opened Bands
  import opened TvocRules
  import opened SmokeStyle

  /** `get_smoke_color`: strict `<` tests against 220, 660, 2200 and 5500 ppb. */
  function SmokeColor(tvoc: real): (r: (string, real))
    ensures r == Palette(BandOf(TvocCuts, tvoc))
  {
    if tvoc < 220.0 then ("#66ff66", 0.25)
    else if tvoc < 660.0 then ("#ffff44", 0.45)
    else if tvoc < 2200.0 then ("#ffaa33", 0.55)
    else if tvoc < 5500.0 then ("#ff4444", 0.65)
    else ("#bb2222", 0.75)
  }

  /** A higher TVOC is never drawn fainter. */
  lemma SmokeOpacityMonotone(x: real, y: real)
    requires x <= y
    ensures SmokeColor(x).1 <= SmokeColor(y).1
  {
    BandMonotone(TvocCuts, x, y);
    if BandOf(TvocCuts, x) != BandOf(TvocCuts, y) {
      PaletteOpacityIncreasing(BandOf(TvocCuts, x), BandOf(TvocCuts, y));
    }
  }

  /** This script's short labels. */
  function SignatureLabel(s: Source): string {
    match s
    case Diesel => "🚜 Generador Diésel"
    case Biomass => "🔥 Biomasa"
    case Traffic => "🚗 Tráfico"
    case Severe => "⚠️ Severa"
    case Clean => "🌿 Limpio"
    case Industrial => "🏭 Industrial"
  }

  /** `detectar_firma`, as this script's chain of tests. */
  function DetectSignature(tvoc: real, eco2: real, h2: real, ethanol: real): string {
    if tvoc > 1000.0 && h2 > 13000.0 then "🚜 Generador Diésel"
    else if tvoc > 500.0 && ethanol > 18000.0 then "🔥 Biomasa"
    else if tvoc > 300.0 && eco2 > 1000.0 && tvoc < 800.0 then "🚗 Tráfico"
    else if tvoc > 5000.0 then "⚠️ Severa"
    else if tvoc < 100.0 then "🌿 Limpio"
    else "🏭 Industrial"
  }

  /** The chain is the shared first-match signature table with this script's labels. */
  lemma DetectSignatureIsTable(tvoc: real, eco2: real, h2: real, ethanol: real)
    ensures DetectSignature(tvoc, eco2, h2, ethanol) == SignatureLabel(Signature(tvoc, eco2, h2, ethanol))
  {
    SignatureUnfold(tvoc, eco2, h2, ethanol);
  }

  /** What is drawn for one sample. */
  datatype Curtain = Curtain(lat: real, lon: real, color: string, layers: seq<Layer>, signature: string)

  /**
   * The curtain of one sample: at its position, in its band's palette colour,
   * four circles of radius `(25 + tvoc/80)·(1 + 0.25 i)` and opacity
   * `opacity·(0.6 − 0.12 i)` for the band's opacity, labelled with its signature.
   */
  function MakeCurtain(s: GasSample): (c: Curtain)
    ensures c.lat == s.lat && c.lon == s.lon
    ensures c.color == Palette(BandOf(TvocCuts, s.tvoc)).0
    ensures |c.layers| == 4
    ensures forall i :: 0 <= i < |c.layers| ==>
      c.layers[i].radius == (25.0 + s.tvoc / 80.0) * (1.0 + i as real * 0.25)
      && c.layers[i].opacity == Palette(BandOf(TvocCuts, s.tvoc)).1 * (0.6 - i as real * 0.12)
    ensures c.signature == SignatureLabel(Signature(s.tvoc, s.eco2, s.h2, s.ethanol))
  {
    var (color, opacity) := SmokeColor(s.tvoc);
    DetectSignatureIsTable(s.tvoc, s.eco2, s.h2, s.ethanol);
    var layers := Layers(s.tvoc, opacity);
    assert forall i :: 0 <= i < 4 ==>
      layers[i] == Layer(RadiusBase(s.tvoc) * (1.0 + i as real * 0.25), opacity * (0.6 - i as real * 0.12));
    Curtain(s.lat, s.lon, color, layers, DetectSignature(s.tvoc, s.eco2, s.h2, s.ethanol))
  }

  /** The curtains of the map: one per sample with a GPS fix, in order, each that sample's curtain. */
  function Curtains(rows: seq<GasSample>): (cs: seq<Curtain>)
    ensures |cs| == |WithFix(rows)|
    ensures forall i :: 0 <= i < |cs| ==> cs[i] == MakeCurtain(WithFix(rows)[i])
  {
    var gps := WithFix(rows);
    seq(|gps|, i requires 0 <= i < |gps| => MakeCurtain(gps[i]))
  }

  /**
   * Every curtain sits on a GPS fix and, for a non-negative TVOC, its circles are
   * nested and fade outwards while staying visible.
   */
  lemma CurtainsWellFormed(rows: seq<GasSample>)
    ensures forall i :: 0 <= i < |Curtains(rows)| ==>
      Curtains(rows)[i].lat != 0.0 && Curtains(rows)[i].lon != 0.0
    ensures forall i :: 0 <= i < |Curtains(rows)| && WithFix(rows)[i].tvoc >= 0.0 ==>
      |Curtains(rows)[i].layers| == 4
      && forall k, m :: 0 <= k < m < 4 ==>
           Curtains(rows)[i].layers[k].radius < Curtains(rows)[i].layers[m].radius
           && Curtains(rows)[i].layers[k].opacity > Curtains(rows)[i].layers[m].opacity > 0.0
  {
    var gps := WithFix(rows);
    forall i | 0 <= i < |gps| && gps[i].tvoc >= 0.0
      ensures forall k, m :: 0 <= k < m < 4 ==>
           Curtains(rows)[i].layers[k].radius < Curtains(rows)[i].layers[m].radius
           && Curtains(rows)[i].layers[k].opacity > Curtains(rows)[i].layers[m].opacity > 0.0
    {
      var opacity := SmokeColor(gps[i].tvoc).1;
      assert opacity > 0.0;
      LayersNested(gps[i].tvoc, opacity);
    }
  }

  /** `umbrales`: the summary's interval limits. */
  const Limits: seq<real> := [0.0, 220.0, 660.0, 2200.0, 5500.0, 99999.0]

  /** The summary: samples in `[Limits[i], Limits[i + 1])` for each of the five levels. */
  function Distribution(tvoc: seq<real>): (d: seq<nat>)
    ensures |d| == 5
  {
    seq(5, i requires 0 <= i < 5 => CountIn(tvoc, Limits[i], Limits[i + 1]))
  }

  /**
   * The summary's intervals are disjoint and cover `[0, 99999)`, and the one a
   * value falls in is the band the map colours it with.
   */
  lemma DistributionIntervals(x: real, i: nat)
    requires 0.0 <= x < 99999.0 && i < 5
    ensures Limits[i] <= x < Limits[i + 1] <==> i == Rank(BandOf(TvocCuts, x))
  {
  }

  /** For readings in `[0, 99999)` the summary counts are the colour bands' counts. */
  lemma DistributionMatchesColours(tvoc: seq<real>)
    requires forall k :: 0 <= k < |tvoc| ==> 0.0 <= tvoc[k] < 99999.0
    ensures Distribution(tvoc)[0] == CountBand(TvocCuts, tvoc, Excellent)
    ensures Distribution(tvoc)[1] == CountBand(TvocCuts, tvoc, Good)
    ensures Distribution(tvoc)[2] == CountBand(TvocCuts, tvoc, Moderate)
    ensures Distribution(tvoc)[3] == CountBand(TvocCuts, tvoc, Poor)
    ensures Distribution(tvoc)[4] == CountBand(TvocCuts, tvoc, VeryPoor)
  {
    var d := Distribution(tvoc);
    assert d[0] == CountIn(tvoc, 0.0, 220.0) && d[1] == CountIn(tvoc, 220.0, 660.0);
    assert d[2] == CountIn(tvoc, 660.0, 2200.0) && d[3] == CountIn(tvoc, 2200.0, 5500.0);
    assert d[4] == CountIn(tvoc, 5500.0, 99999.0);
    IntervalCounts(TvocCuts, tvoc);
    CountInFromBelow(tvoc, 0.0, 220.0);
    CountInToAtLeast(tvoc, 5500.0, 99999.0);
  }

  lemma {:induction false} CountInFromBelow(s: seq<real>, lo: real, hi: real)
    requires forall k :: 0 <= k < |s| ==> lo <= s[k]
    ensures CountIn(s, lo, hi) == CountBelow(s, hi)
  {
    if s != [] {
      CountInFromBelow(s[1..], lo, hi);
    }
  }

  lemma {:induction false} CountInToAtLeast(s: seq<real>, lo: real, hi: real)
    requires forall k :: 0 <= k < |s| ==> s[k] < hi
    ensures CountIn(s, lo, hi) == CountAtLeast(s, lo)
  {
    if s != [] {
      CountInToAtLeast(s[1..], lo, hi);
    }
  }
}
