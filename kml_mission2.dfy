/**
 * The 3-D KML generator for mission 2 (`python/generar_kml_mision2.py`): one
 * cylinder per sample with a GPS fix, filled with a green-to-red colour placed
 * by TVOC between the frame's minimum and maximum and outlined in the same
 * colour made opaque. Each placemark's description states a cylinder height of
 * 1.5 m per ppb; the polygon's coordinates carry no altitude.
 */
module KmlMission2 {
  import opened Wrappers
  import opened Text
  import opened PyMath
  import opened Bands
  import opened TvocRules
  import opened KmlColor
  import Mission2Analysis

  /** Position of `tvoc` between `lo` and `hi`, or the midpoint when they coincide. */
  function Norm(tvoc: real, lo: real, hi: real): (n: real)
    requires lo <= tvoc <= hi
    ensures 0.0 <= n <= 1.0
    ensures lo < hi ==> n * (hi - lo) == tvoc - lo
  {
    if hi == lo then 0.5
    else
      FractionBounds(tvoc - lo, hi - lo);
      (tvoc - lo) / (hi - lo)
  }

  /**
   * `get_color_from_tvoc`: semi-transparent (`bb`), no blue, green and red from
   * the gradient at the normalised TVOC. The caller always passes the column's
   * own minimum and maximum.
   */
  function ColorFromTvoc(tvoc: real, lo: real, hi: real): (c: string)
    requires lo <= tvoc <= hi
    ensures Decode(c) == Some(Abgr(0xbb, 0, GradientGreen(Norm(tvoc, lo, hi)), GradientRed(Norm(tvoc, lo, hi))))
  {
    var norm := if hi == lo then 0.5 else (tvoc - lo) / (hi - lo);
    var r := if norm < 0.5 then Trunc(255.0 * (norm * 2.0)) else 255;
    var g := if norm < 0.5 then 255 else Trunc(255.0 * (2.0 - norm * 2.0));
    var b := 0;
    assert norm == Norm(tvoc, lo, hi);
    DecodeEncode(Abgr(0xbb, b, g, r));
    "bb" + Hex2(b) + Hex2(g) + Hex2(r)
  }

  /**
   * Between the frame's extremes red never falls and green never rises as TVOC
   * grows, and one of the two is always at full intensity.
   */
  lemma ColorFromTvocGradient(t1: real, t2: real, lo: real, hi: real)
    requires lo <= t1 <= t2 <= hi
    ensures var c1 := Decode(ColorFromTvoc(t1, lo, hi)).value;
            var c2 := Decode(ColorFromTvoc(t2, lo, hi)).value;
            c1.r <= c2.r && c1.g >= c2.g && (c1.r == 255 || c1.g == 255)
  {
    var n1 := Norm(t1, lo, hi);
    var n2 := Norm(t2, lo, hi);
    if lo < hi {
      assert n1 <= n2 by {
        assert (n2 - n1) * (hi - lo) == t2 - t1;
      }
    }
    GradientMonotone(n1, n2);
  }

  /** Quality label of each band. */
  function QualityLabel(b: Band): string {
    match b
    case Excellent => "Excelente 🟢"
    case Good => "Buena 🟡"
    case Moderate => "Moderada 🟠"
    case Poor => "Mala 🔴"
    case VeryPoor => "Muy Mala ⛔"
  }

  /** `clasificar_calidad`: strict `<` tests against 220, 660, 2200 and 5500 ppb. */
  function ClassifyQuality(tvoc: real): (q: string)
    ensures q == QualityLabel(BandOf(TvocCuts, tvoc))
  {
    if tvoc < 220.0 then "Excelente 🟢"
    else if tvoc < 660.0 then "Buena 🟡"
    else if tvoc < 2200.0 then "Moderada 🟠"
    else if tvoc < 5500.0 then "Mala 🔴"
    else "Muy Mala ⛔"
  }

  /** `detectar_firma`, as this script's chain of tests. */
  function DetectSignature(tvoc: real, eco2: real, h2: real, ethanol: real): string {
    if tvoc > 1000.0 && h2 > 13000.0 then "🚜 Generador Diésel"
    else if tvoc > 500.0 && ethanol > 18000.0 then "🔥 Combustión Biomasa"
    else if tvoc > 300.0 && eco2 > 1000.0 && tvoc < 800.0 then "🚗 Tráfico Vehicular"
    else if tvoc > 5000.0 then "⚠️  Contaminación Severa"
    else if tvoc < 100.0 then "🌿 Aire Limpio"
    else "🏭 Fuente Industrial"
  }

  /** The chain is the shared signature table, with the same labels as the root report. */
  lemma DetectSignatureIsTable(tvoc: real, eco2: real, h2: real, ethanol: real)
    ensures DetectSignature(tvoc, eco2, h2, ethanol) == Mission2Analysis.SignatureLabel(Signature(tvoc, eco2, h2, ethanol))
  {
    SignatureUnfold(tvoc, eco2, h2, ethanol);
  }

  /** `ESCALA_ALTURA`: metres of stated cylinder height per ppb of TVOC. */
  const HeightScale: real := 1.5

  /**
   * `altura_cilindro = tvoc * ESCALA_ALTURA`, the height written in the
   * placemark's description; it is not part of the polygon's geometry.
   */
  function CylinderHeight(tvoc: real): (h: real)
    ensures tvoc >= 0.0 ==> h >= tvoc
  {
    tvoc * HeightScale
  }

  /**
   * The outline colour. The script writes `color_kml.replace('bb', 'ff')`
   * (`KmlColor.OutlineAsWritten`); this is the intended opaque colour.
   */
  function OutlineColor(color: string): (o: string)
    requires |color| == 8
    ensures Decode(color).Some? ==> Decode(o) == Some(Decode(color).value.(a := 255))
  {
    Opaque(color)
  }

  /**
   * What the generator writes for one sample: the circle's centre, the height
   * stated in the description (`altura_cilindro`), the fill and outline colours,
   * and the quality and signature labels.
   */
  datatype Cylinder = Cylinder(lat: real, lon: real, statedHeight: real, color: string, outline: string,
                               quality: string, signature: string)

  function TvocColumn(rows: seq<GasSample>): (t: seq<real>)
    ensures |t| == |rows| && forall i :: 0 <= i < |rows| ==> t[i] == rows[i].tvoc
  {
    seq(|rows|, i requires 0 <= i < |rows| => rows[i].tvoc)
  }

  /**
   * One placemark: centred on the sample's position, stating 1.5 m of height per ppb, filled with
   * the gradient colour at 0xbb alpha, outlined in the same colour made opaque,
   * labelled with the sample's quality band and source signature.
   */
  function MakeCylinder(s: GasSample, lo: real, hi: real): (c: Cylinder)
    requires lo <= s.tvoc <= hi
    ensures c.lat == s.lat && c.lon == s.lon && c.statedHeight == HeightScale * s.tvoc
    ensures Decode(c.color) == Some(Abgr(0xbb, 0, GradientGreen(Norm(s.tvoc, lo, hi)), GradientRed(Norm(s.tvoc, lo, hi))))
    ensures Decode(c.outline) == Some(Abgr(255, 0, GradientGreen(Norm(s.tvoc, lo, hi)), GradientRed(Norm(s.tvoc, lo, hi))))
    ensures c.quality == QualityLabel(BandOf(TvocCuts, s.tvoc))
    ensures c.signature == Mission2Analysis.SignatureLabel(Signature(s.tvoc, s.eco2, s.h2, s.ethanol))
  {
    DetectSignatureIsTable(s.tvoc, s.eco2, s.h2, s.ethanol);
    var color := ColorFromTvoc(s.tvoc, lo, hi);
    DecodeEncode(Abgr(0, 0, 0, 0));
    Cylinder(s.lat, s.lon, CylinderHeight(s.tvoc), color, OutlineColor(color),
             ClassifyQuality(s.tvoc), DetectSignature(s.tvoc, s.eco2, s.h2, s.ethanol))
  }

  /**
   * `main`: `None` when no sample has a fix (it returns before building the KML),
   * otherwise one cylinder per sample with a fix, coloured against the minimum and
   * maximum TVOC of those samples.
   */
  function Cylinders(rows: seq<GasSample>): (r: Option<seq<Cylinder>>)
    ensures r.None? <==> |WithFix(rows)| == 0
    ensures r.Some? ==> |r.value| == |WithFix(rows)|
    ensures r.Some? ==> forall i :: 0 <= i < |r.value| ==>
      var column := TvocColumn(WithFix(rows));
      r.value[i] == MakeCylinder(WithFix(rows)[i], SeqMin(column), SeqMax(column))
  {
    var gps := WithFix(rows);
    if |gps| == 0 then None
    else
      var column := TvocColumn(gps);
      var lo := SeqMin(column);
      var hi := SeqMax(column);
      Some(seq(|gps|, i requires 0 <= i < |gps| => MakeCylinder(gps[i], lo, hi)))
  }

  /**
   * The outline as written also rewrites a green or red byte of 187 (`bb`): at
   * TVOC 632 in a 0–1000 ppb frame the fill is `bb00bbff`, orange with green 187 …
   */
  lemma FillCounterexample()
    ensures ColorFromTvoc(632.0, 0.0, 1000.0) == "bb00bbff"
  {
    assert Norm(632.0, 0.0, 1000.0) == 0.632;
    assert Trunc(255.0 * (2.0 - 0.632 * 2.0)) == 187;
    assert Hex2(187) == "bb" && Hex2(255) == "ff" && Hex2(0) == "00";
  }

  /** … and `replace('bb', 'ff')` turns it into `ff00ffff`, yellow with green 255, instead of `ff00bbff`. */
  lemma OutlineCounterexample()
    ensures OutlineAsWritten("bb00bbff") == "ff00ffff"
    ensures OutlineColor("bb00bbff") == "ff00bbff"
  {
    var s := "bb00bbff";
    assert ReplaceAll(s[6..], "bb", "ff") == "ff";
    assert ReplaceAll(s[5..], "bb", "ff") == "bff";
    assert ReplaceAll(s[4..], "bb", "ff") == "ffff";
    assert ReplaceAll(s[3..], "bb", "ff") == "0ffff";
    assert ReplaceAll(s[2..], "bb", "ff") == "00ffff";
  }

  /** Read as channels, the outline as written has green 255 where the fill had 187; the intended outline keeps 187. */
  lemma OutlineCounterexampleChannels()
    ensures Decode("ff00ffff") == Some(Abgr(255, 0, 255, 255))
    ensures Decode("ff00bbff") == Some(Abgr(255, 0, 187, 255)) == Some(Decode("bb00bbff").value.(a := 255))
  {
    assert ParseHex2("ff") == Some(255) && ParseHex2("bb") == Some(187) && ParseHex2("00") == Some(0);
  }
}
