/**
 * The documentation copy of the 3-D KML generator
 * (`docs/analisis_post_vuelo/scripts/generar_kml.py`): the same colour,
 * classification and signature rules as `python/generar_kml_mision2.py`, with
 * the one-space severe label.
 */
module KmlDocs {
  import opened Wrappers
  import opened Text
  import opened PyMath
  import opened Bands
  import opened TvocRules
  import opened KmlColor
  import KmlMission2
  import Mission2Docs

  /** `get_color_kml`, written as in this copy. */
  function ColorKml(tvoc: real, lo: real, hi: real): (c: string)
    requires lo <= tvoc <= hi
    ensures c == KmlMission2.ColorFromTvoc(tvoc, lo, hi)
    ensures Decode(c) == Some(Abgr(0xbb, 0, GradientGreen(KmlMission2.Norm(tvoc, lo, hi)),
                                   GradientRed(KmlMission2.Norm(tvoc, lo, hi))))
  {
    var norm := if hi == lo then 0.5 else (tvoc - lo) / (hi - lo);
    var r := if norm < 0.5 then Trunc(255.0 * (norm * 2.0)) else 255;
    var g := if norm < 0.5 then 255 else Trunc(255.0 * (2.0 - norm * 2.0));
    var b := 0;
    assert norm == KmlMission2.Norm(tvoc, lo, hi);
    "bb" + Hex2(b) + Hex2(g) + Hex2(r)
  }

  /** `clasificar_calidad`, with the same cut points and labels as the mission-2 generator. */
  function ClassifyQuality(tvoc: real): (q: string)
    ensures q == KmlMission2.QualityLabel(BandOf(TvocCuts, tvoc))
  {
    if tvoc < 220.0 then "Excelente 🟢"
    else if tvoc < 660.0 then "Buena 🟡"
    else if tvoc < 2200.0 then "Moderada 🟠"
    else if tvoc < 5500.0 then "Mala 🔴"
    else "Muy Mala ⛔"
  }

  /** `detectar_firma`, as this copy's chain of tests. */
  function DetectSignature(tvoc: real, eco2: real, h2: real, ethanol: real): string {
    if tvoc > 1000.0 && h2 > 13000.0 then "🚜 Generador Diésel"
    else if tvoc > 500.0 && ethanol > 18000.0 then "🔥 Combustión Biomasa"
    else if tvoc > 300.0 && eco2 > 1000.0 && tvoc < 800.0 then "🚗 Tráfico Vehicular"
    else if tvoc > 5000.0 then "⚠️ Contaminación Severa"
    else if tvoc < 100.0 then "🌿 Aire Limpio"
    else "🏭 Fuente Industrial"
  }

  /** Same first-match order and thresholds: the shared table, with this copy's labels. */
  lemma DetectSignatureIsTable(tvoc: real, eco2: real, h2: real, ethanol: real)
    ensures DetectSignature(tvoc, eco2, h2, ethanol) == Mission2Docs.SignatureLabel(Signature(tvoc, eco2, h2, ethanol))
  {
    SignatureUnfold(tvoc, eco2, h2, ethanol);
  }

  /**
   * One placemark of this copy: the mission-2 generator's cylinder for the same
   * sample and TVOC range (position, fill, the intended opaque outline and
   * quality), labelled with this copy's signature text. The height field holds
   * this copy's `altura`, which the script computes but never writes.
   */
  function MakeCylinder(s: GasSample, lo: real, hi: real): (c: KmlMission2.Cylinder)
    requires lo <= s.tvoc <= hi
    ensures c == KmlMission2.MakeCylinder(s, lo, hi).(signature := Mission2Docs.SignatureLabel(Signature(s.tvoc, s.eco2, s.h2, s.ethanol)))
  {
    var color := ColorKml(s.tvoc, lo, hi);
    DetectSignatureIsTable(s.tvoc, s.eco2, s.h2, s.ethanol);
    KmlMission2.Cylinder(s.lat, s.lon, s.tvoc * 1.5, color, Opaque(color),
                         ClassifyQuality(s.tvoc), DetectSignature(s.tvoc, s.eco2, s.h2, s.ethanol))
  }

  /**
   * `main`: nothing when no sample has a fix, otherwise one cylinder per sample
   * with a fix, in order: the mission-2 generator's cylinder with this copy's
   * signature label.
   */
  function Cylinders(rows: seq<GasSample>): (r: Option<seq<KmlMission2.Cylinder>>)
    ensures r.None? <==> |WithFix(rows)| == 0
    ensures r.Some? ==> |r.value| == |WithFix(rows)|
    ensures r.Some? ==> forall i :: 0 <= i < |r.value| ==>
      var s := WithFix(rows)[i];
      r.value[i] == KmlMission2.Cylinders(rows).value[i].(signature := Mission2Docs.SignatureLabel(Signature(s.tvoc, s.eco2, s.h2, s.ethanol)))
  {
    var gps := WithFix(rows);
    if |gps| == 0 then None
    else
      var column := KmlMission2.TvocColumn(gps);
      var lo := SeqMin(column);
      var hi := SeqMax(column);
      Some(seq(|gps|, i requires 0 <= i < |gps| => MakeCylinder(gps[i], lo, hi)))
  }
}
