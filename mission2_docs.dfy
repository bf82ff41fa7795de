/**
 * The documentation copy of the mission-2 analysis
 * (`docs/analisis_post_vuelo/scripts/analizar_mision2.py`): the same classifier
 * and signature rules as the root script, a GPS filter that gives up when no row
 * has a fix, and heat intensities scaled by 5000 ppb instead of 10000.
 */
module Mission2Docs {
  import opened Wrappers
  import opened Bands
  import opened TvocRules
  import Mission2Analysis

  /** `clasificar_calidad_aire`, with the same cut points and labels as the root copy. */
  function ClassifyAirQuality(tvoc: real): (r: (string, string))
    ensures r == Mission2Analysis.QualityLabel(BandOf(TvocCuts, tvoc))
  {
    if tvoc < 220.0 then ("Excelente", "#00FF00")
    else if tvoc < 660.0 then ("Buena", "#7FFF00")
    else if tvoc < 2200.0 then ("Moderada", "#FFFF00")
    else if tvoc < 5500.0 then ("Mala", "#FF8C00")
    else ("Muy Mala", "#FF0000")
  }

  /** This copy's labels: the severe label has one space after the warning sign, not two. */
  function SignatureLabel(s: Source): string {
    match s
    case Diesel => "🚜 Generador Diésel"
    case Biomass => "🔥 Combustión Biomasa"
    case Traffic => "🚗 Tráfico Vehicular"
    case Severe => "⚠️ Contaminación Severa"
    case Clean => "🌿 Aire Limpio"
    case Industrial => "🏭 Fuente Industrial"
  }

  /** `detectar_firma_combustion`, as this copy's chain of tests. */
  function DetectCombustionSignature(tvoc: real, eco2: real, h2: real, ethanol: real): string {
    if tvoc > 1000.0 && h2 > 13000.0 then "🚜 Generador Diésel"
    else if tvoc > 500.0 && ethanol > 18000.0 then "🔥 Combustión Biomasa"
    else if tvoc > 300.0 && eco2 > 1000.0 && tvoc < 800.0 then "🚗 Tráfico Vehicular"
    else if tvoc > 5000.0 then "⚠️ Contaminación Severa"
    else if tvoc < 100.0 then "🌿 Aire Limpio"
    else "🏭 Fuente Industrial"
  }

  /**
   * Same order and thresholds as the root copy: both chains are the shared
   * table, so they name the same source for every reading and print the same
   * text except for the severe label's spacing.
   */
  lemma SameRulesAsRoot(tvoc: real, eco2: real, h2: real, ethanol: real)
    ensures DetectCombustionSignature(tvoc, eco2, h2, ethanol) == SignatureLabel(Signature(tvoc, eco2, h2, ethanol))
    ensures Signature(tvoc, eco2, h2, ethanol) != Severe ==>
              DetectCombustionSignature(tvoc, eco2, h2, ethanol)
              == Mission2Analysis.DetectCombustionSignature(tvoc, eco2, h2, ethanol)
  {
    SignatureUnfold(tvoc, eco2, h2, ethanol);
  }

  /**
   * The heat layer of `crear_mapa_calor`: `None` when no row has a fix (the
   * function returns without a map), otherwise one point per row with a fix.
   */
  function HeatData(rows: seq<GasSample>): (r: Option<seq<HeatPoint>>)
    ensures r.None? <==> forall i :: 0 <= i < |rows| ==> !HasFix(rows[i])
    ensures r.Some? ==> r.value == HeatPoints(rows, 5000.0)
  {
    var gps := WithFix(rows);
    NoFixIff(rows);
    if |gps| == 0 then None
    else Some(seq(|gps|, i requires 0 <= i < |gps| => HeatPoint(gps[i].lat, gps[i].lon, Intensity(gps[i].tvoc, 5000.0))))
  }

  /** The filtered frame is empty exactly when no row has a fix. */
  lemma {:induction false} NoFixIff(rows: seq<GasSample>)
    ensures |WithFix(rows)| == 0 <==> forall i :: 0 <= i < |rows| ==> !HasFix(rows[i])
  {
    if rows != [] {
      var init := rows[..|rows| - 1];
      NoFixIff(init);
      assert forall i :: 0 <= i < |init| ==> init[i] == rows[i];
    }
  }

  /** Marker colour, the same rule as the root copy. */
  function MarkerColor(tvoc: real): (m: Marker)
    ensures m == Mission2Analysis.MarkerColor(tvoc)
  {
    if tvoc > 1000.0 then Red else if tvoc > 500.0 then Orange else Green
  }
}
