/**
 * The mission-2 report script (`analizar_mision2.py` at the repository root):
 * TVOC air-quality classes, combustion signatures, the heat-map points, the
 * marker colours and the per-band sample counts of the text report.
 */
module Mission2Analysis {
  import opened Bands
  import opened TvocRules

  /** Label and colour of each air-quality band. */
  function QualityLabel(b: Band): (string, string) {
    match b
    case Excellent => ("Excelente", "#00FF00")
    case Good => ("Buena", "#7FFF00")
    case Moderate => ("Moderada", "#FFFF00")
    case Poor => ("Mala", "#FF8C00")
    case VeryPoor => ("Muy Mala", "#FF0000")
  }

  /** `clasificar_calidad_aire`: strict `<` tests against 220, 660, 2200 and 5500 ppb. */
  function ClassifyAirQuality(tvoc: real): (r: (string, string))
    ensures r == QualityLabel(BandOf(TvocCuts, tvoc))
  {
    if tvoc < 220.0 then ("Excelente", "#00FF00")
    else if tvoc < 660.0 then ("Buena", "#7FFF00")
    else if tvoc < 2200.0 then ("Moderada", "#FFFF00")
    else if tvoc < 5500.0 then ("Mala", "#FF8C00")
    else ("Muy Mala", "#FF0000")
  }

  /** A higher TVOC never gets a better class. */
  lemma ClassifyAirQualityMonotone(x: real, y: real)
    requires x <= y
    ensures Rank(BandOf(TvocCuts, x)) <= Rank(BandOf(TvocCuts, y))
  {
    BandMonotone(TvocCuts, x, y);
  }

  /** This script's label for each source. */
  function SignatureLabel(s: Source): string {
    match s
    case Diesel => "🚜 Generador Diésel"
    case Biomass => "🔥 Combustión Biomasa"
    case Traffic => "🚗 Tráfico Vehicular"
    case Severe => "⚠️  Contaminación Severa"
    case Clean => "🌿 Aire Limpio"
    case Industrial => "🏭 Fuente Industrial"
  }

  /** `detectar_firma_combustion`, as the script's chain of tests. */
  function DetectCombustionSignature(tvoc: real, eco2: real, h2: real, ethanol: real): string {
    if tvoc > 1000.0 && h2 > 13000.0 then "🚜 Generador Diésel"
    else if tvoc > 500.0 && ethanol > 18000.0 then "🔥 Combustión Biomasa"
    else if tvoc > 300.0 && eco2 > 1000.0 && tvoc < 800.0 then "🚗 Tráfico Vehicular"
    else if tvoc > 5000.0 then "⚠️  Contaminación Severa"
    else if tvoc < 100.0 then "🌿 Aire Limpio"
    else "🏭 Fuente Industrial"
  }

  /** The chain is the shared first-match signature table, rule for rule. */
  lemma DetectCombustionSignatureIsTable(tvoc: real, eco2: real, h2: real, ethanol: real)
    ensures DetectCombustionSignature(tvoc, eco2, h2, ethanol) == SignatureLabel(Signature(tvoc, eco2, h2, ethanol))
  {
    SignatureUnfold(tvoc, eco2, h2, ethanol);
  }

  /** Heat-map points: `crear_mapa_calor` walks the rows and keeps those with a fix. */
  method HeatData(rows: seq<GasSample>) returns (heat: seq<HeatPoint>)
    ensures heat == HeatPoints(rows, 10000.0)
    ensures forall i :: 0 <= i < |heat| && WithFix(rows)[i].tvoc >= 0.0 ==> 0.0 <= heat[i].intensity <= 1.0
  {
    heat := [];
    var i := 0;
    while i < |rows|
      invariant 0 <= i <= |rows|
      invariant heat == HeatPoints(rows[..i], 10000.0)
    {
      var row := rows[i];
      assert rows[..i + 1][..i] == rows[..i];
      if row.lat != 0.0 && row.lon != 0.0 {
        var intensity := if row.tvoc / 10000.0 <= 1.0 then row.tvoc / 10000.0 else 1.0;
        heat := heat + [HeatPoint(row.lat, row.lon, intensity)];
      }
      i := i + 1;
    }
    assert rows[..|rows|] == rows;
  }

  /** Number of rows counted as "GPS válido" in the report: only the latitude is checked. */
  function GpsValidCount(rows: seq<GasSample>): (n: nat)
    ensures n <= |rows|
  {
    if rows == [] then 0 else (if rows[0].lat != 0.0 then 1 else 0) + GpsValidCount(rows[1..])
  }

  /** The report's GPS count can only overstate the rows the map uses. */
  lemma {:induction false} GpsValidCountCoversMap(rows: seq<GasSample>)
    ensures |WithFix(rows)| <= GpsValidCount(rows)
  {
    if rows != [] {
      var last := rows[|rows| - 1];
      GpsValidCountSnoc(rows[..|rows| - 1], last);
      assert rows == rows[..|rows| - 1] + [last];
      GpsValidCountCoversMap(rows[..|rows| - 1]);
    }
  }

  lemma {:induction false} GpsValidCountSnoc(rows: seq<GasSample>, r: GasSample)
    ensures GpsValidCount(rows + [r]) == GpsValidCount(rows) + (if r.lat != 0.0 then 1 else 0)
  {
    if rows != [] {
      assert (rows + [r])[1..] == rows[1..] + [r];
      GpsValidCountSnoc(rows[1..], r);
    }
  }

  /** Marker colour: red above 1000 ppb, orange above 500, otherwise green. */
  function MarkerColor(tvoc: real): (m: Marker)
    ensures m == Red <==> tvoc > 1000.0
    ensures m == Green <==> tvoc <= 500.0
  {
    if tvoc > 1000.0 then Red else if tvoc > 500.0 then Orange else Green
  }

  function MarkerRank(m: Marker): nat {
    match m
    case Green => 0
    case Orange => 1
    case Red => 2
  }

  /** A higher TVOC never gets a milder marker. */
  lemma MarkerColorMonotone(x: real, y: real)
    requires x <= y
    ensures MarkerRank(MarkerColor(x)) <= MarkerRank(MarkerColor(y))
  {
  }

  /** The five band counts of `generar_informe_texto`. */
  datatype BandCounts = BandCounts(excellent: nat, good: nat, moderate: nat, poor: nat, veryPoor: nat)

  function CountBands(tvoc: seq<real>): BandCounts {
    BandCounts(
      CountBelow(tvoc, 220.0),
      CountIn(tvoc, 220.0, 660.0),
      CountIn(tvoc, 660.0, 2200.0),
      CountIn(tvoc, 2200.0, 5500.0),
      CountAtLeast(tvoc, 5500.0))
  }

  /**
   * The report's interval counts agree with the classifier band by band, and
   * since the intervals partition the values they add up to the sample count.
   */
  lemma CountBandsPartition(tvoc: seq<real>)
    ensures CountBands(tvoc).excellent == CountBand(TvocCuts, tvoc, Excellent)
    ensures CountBands(tvoc).good == CountBand(TvocCuts, tvoc, Good)
    ensures CountBands(tvoc).moderate == CountBand(TvocCuts, tvoc, Moderate)
    ensures CountBands(tvoc).poor == CountBand(TvocCuts, tvoc, Poor)
    ensures CountBands(tvoc).veryPoor == CountBand(TvocCuts, tvoc, VeryPoor)
    ensures var c := CountBands(tvoc); c.excellent + c.good + c.moderate + c.poor + c.veryPoor == |tvoc|
  {
    IntervalCounts(TvocCuts, tvoc);
    CountBandSum(TvocCuts, tvoc);
  }
}
