/**
 * The first flight analysis (`software/post-vuelo/python/analizar_vuelo.py`):
 * CO2 and PM2.5 air-quality classes, the combustion signature of a row, and the
 * KML cylinder colours scaled between the lowest and highest PM2.5 of the rows
 * with a GPS fix.
 */
module FlightAnalysis {
  import opened Wrappers
  import opened Text
  import opened PyMath
  import opened Bands
  import opened CombustionRules
  import opened KmlColor
  import KmlMission2

  /** `UMBRALES_CO2` in ppm. */
  const Co2Cuts := Cuts(450.0, 600.0, 1000.0, 1500.0)
  /** `UMBRALES_PM25` in µg/m³. */
  const Pm25Cuts := Cuts(12.0, 35.0, 55.0, 150.0)

  /** Label and colour of each band. */
  function BandLabel(b: Band): (string, string) {
    match b
    case Excellent => ("Excelente", "#00FF00")
    case Good => ("Bueno", "#7FFF00")
    case Moderate => ("Moderado", "#FFFF00")
    case Poor => ("Malo", "#FF8C00")
    case VeryPoor => ("Muy Malo", "#FF0000")
  }

  /** `clasificar_co2`: strict `<` tests against 450, 600, 1000 and 1500 ppm. */
  function ClassifyCo2(co2: real): (r: (string, string))
    ensures r == BandLabel(BandOf(Co2Cuts, co2))
  {
    if co2 < 450.0 then ("Excelente", "#00FF00")
    else if co2 < 600.0 then ("Bueno", "#7FFF00")
    else if co2 < 1000.0 then ("Moderado", "#FFFF00")
    else if co2 < 1500.0 then ("Malo", "#FF8C00")
    else ("Muy Malo", "#FF0000")
  }

  /** `clasificar_pm25`: strict `<` tests against 12, 35, 55 and 150 µg/m³. */
  function ClassifyPm25(pm25: real): (r: (string, string))
    ensures r == BandLabel(BandOf(Pm25Cuts, pm25))
  {
    if pm25 < 12.0 then ("Excelente", "#00FF00")
    else if pm25 < 35.0 then ("Bueno", "#7FFF00")
    else if pm25 < 55.0 then ("Moderado", "#FFFF00")
    else if pm25 < 150.0 then ("Malo", "#FF8C00")
    else ("Muy Malo", "#FF0000")
  }

  /** Both classifiers are monotone: more pollution never gives a better class. */
  lemma ClassifiersMonotone(x: real, y: real)
    requires x <= y
    ensures Rank(BandOf(Co2Cuts, x)) <= Rank(BandOf(Co2Cuts, y))
    ensures Rank(BandOf(Pm25Cuts, x)) <= Rank(BandOf(Pm25Cuts, y))
  {
    BandMonotone(Co2Cuts, x, y);
    BandMonotone(Pm25Cuts, x, y);
  }

  /** Every value gets exactly the class whose half-open interval holds it. */
  lemma ClassifiersPartition(x: real, b: Band)
    ensures ClassifyCo2(x) == BandLabel(b) <==> InBand(Co2Cuts, b, x)
    ensures ClassifyPm25(x) == BandLabel(b) <==> InBand(Pm25Cuts, b, x)
  {
    BandInterval(Co2Cuts, b, x);
    BandInterval(Pm25Cuts, b, x);
  }

  /** This script's label for each source. */
  function SignatureLabel(s: Source): string {
    match s
    case Combustion => "🔥 Combustión activa"
    case Diesel => "🚜 Generador Diésel"
    case Traffic => "🚗 Tráfico Vehicular"
    case Dust => "🌫️ Polvo (sin combustión)"
    case Clean => "🌿 Aire Limpio"
    case Mixed => "🏭 Fuente mixta"
  }

  /**
   * `detectar_firma` of a row. The row's PM10, or `1.5 · pm25` when the column is
   * missing, is read and never used.
   */
  function DetectSignature(co2: real, pm25: real, pm10: Option<real>): string {
    var pm10Value := pm10.GetOr(pm25 * 1.5);
    if co2 > 700.0 && pm25 > 100.0 then "🔥 Combustión activa"
    else if co2 > 600.0 && pm25 > 80.0 then "🚜 Generador Diésel"
    else if co2 > 500.0 && pm25 > 40.0 then "🚗 Tráfico Vehicular"
    else if co2 < 480.0 && pm25 > 50.0 then "🌫️ Polvo (sin combustión)"
    else if co2 < 450.0 && pm25 < 12.0 then "🌿 Aire Limpio"
    else "🏭 Fuente mixta"
  }

  /** The chain is the first-match table of this script, whatever the PM10 column holds. */
  lemma DetectSignatureIsTable(co2: real, pm25: real, pm10: Option<real>, anyPm10: real)
    ensures DetectSignature(co2, pm25, pm10) == SignatureLabel(FlightSignature(co2, pm25, anyPm10))
  {
    FlightSignatureUnfold(co2, pm25, anyPm10);
  }

  /** The two cases the script's comments single out. */
  lemma DetectSignatureExamples(pm10: Option<real>)
    ensures DetectSignature(900.0, 120.0, pm10) == "🔥 Combustión activa"
    ensures DetectSignature(410.0, 5.0, pm10) == "🌿 Aire Limpio"
  {
  }

  /** `norm = (pm25 − min) / max(max − min, 1)`. */
  function Norm(pm25: real, lo: real, hi: real): (n: real)
    requires lo <= pm25 <= hi
    ensures 0.0 <= n <= 1.0
    ensures hi - lo >= 1.0 ==> n * (hi - lo) == pm25 - lo
    ensures hi - lo < 1.0 ==> n == pm25 - lo
  {
    FractionBounds(pm25 - lo, Max(hi - lo, 1.0));
    (pm25 - lo) / Max(hi - lo, 1.0)
  }

  /**
   * `get_color` inside `crear_kml`: semi-transparent, no blue, and green and red
   * from the gradient. Unlike the mission-2 generators a flat column gives pure
   * green, not the midpoint.
   */
  function GetColor(pm25: real, lo: real, hi: real): (c: string)
    requires lo <= pm25 <= hi
    ensures Decode(c) == Some(Abgr(0xbb, 0, GradientGreen(Norm(pm25, lo, hi)), GradientRed(Norm(pm25, lo, hi))))
    ensures lo == hi ==> Decode(c) == Some(Abgr(0xbb, 0, 255, 0))
  {
    var norm := Norm(pm25, lo, hi);
    var r := GradientRed(norm);
    var g := GradientGreen(norm);
    DecodeEncode(Abgr(0xbb, 0, g, r));
    "bb00" + Hex2(g) + Hex2(r)
  }

  /** Between the frame's extremes red never falls and green never rises as PM2.5 grows. */
  lemma GetColorGradient(p1: real, p2: real, lo: real, hi: real)
    requires lo <= p1 <= p2 <= hi
    ensures var c1 := Decode(GetColor(p1, lo, hi)).value;
            var c2 := Decode(GetColor(p2, lo, hi)).value;
            c1.r <= c2.r && c1.g >= c2.g
  {
    DivMonotone(p1 - lo, p2 - lo, Max(hi - lo, 1.0));
    GradientMonotone(Norm(p1, lo, hi), Norm(p2, lo, hi));
  }

  /** One telemetry row as `crear_kml` reads it. */
  datatype Row = Row(lat: real, lon: real, alt: real, co2: real, pm25: real, pm10: Option<real>)

  /** What `crear_kml` writes for one row. */
  datatype Cylinder = Cylinder(lat: real, lon: real, color: string, outline: string, signature: string)

  function WithFix(rows: seq<Row>): (gps: seq<Row>)
    ensures |gps| <= |rows|
    ensures forall i :: 0 <= i < |gps| ==> gps[i].lat != 0.0 && gps[i].lon != 0.0 && gps[i] in rows
  {
    if rows == [] then []
    else
      var r := rows[|rows| - 1];
      WithFix(rows[..|rows| - 1]) + (if r.lat != 0.0 && r.lon != 0.0 then [r] else [])
  }

  /** Every row with both coordinates is kept, as often as it occurs; no other row is. */
  lemma {:induction false} WithFixCounts(rows: seq<Row>, r: Row)
    ensures multiset(WithFix(rows))[r] == if r.lat != 0.0 && r.lon != 0.0 then multiset(rows)[r] else 0
  {
    if rows != [] {
      var init, last := rows[..|rows| - 1], rows[|rows| - 1];
      assert rows == init + [last];
      WithFixCounts(init, r);
    }
  }

  function Pm25Column(rows: seq<Row>): (t: seq<real>)
    ensures |t| == |rows| && forall i :: 0 <= i < |rows| ==> t[i] == rows[i].pm25
  {
    seq(|rows|, i requires 0 <= i < |rows| => rows[i].pm25)
  }

  /**
   * The cylinders of `crear_kml`: one per row with a GPS fix, in order, filled
   * with `get_color` against the lowest and highest PM2.5 of those rows, with
   * the row's signature, and outlined in the same colour made opaque (the
   * script's `replace('bb', 'ff')` also rewrites colour bytes; see
   * `OutlineCounterexample`).
   */
  function Cylinders(rows: seq<Row>): (cs: seq<Cylinder>)
    ensures |cs| == |WithFix(rows)|
    ensures forall i :: 0 <= i < |cs| ==>
      cs[i].lat == WithFix(rows)[i].lat && cs[i].lon == WithFix(rows)[i].lon
      && Decode(cs[i].color).Some? && Decode(cs[i].outline) == Some(Decode(cs[i].color).value.(a := 255))
    ensures forall i :: 0 <= i < |cs| ==>
      var gps := WithFix(rows);
      var column := Pm25Column(gps);
      cs[i].color == GetColor(gps[i].pm25, SeqMin(column), SeqMax(column))
      && cs[i].signature == DetectSignature(gps[i].co2, gps[i].pm25, gps[i].pm10)
  {
    var gps := WithFix(rows);
    if |gps| == 0 then []
    else
      var column := Pm25Column(gps);
      var lo := SeqMin(column);
      var hi := SeqMax(column);
      seq(|gps|, i requires 0 <= i < |gps| =>
        var color := GetColor(gps[i].pm25, lo, hi);
        Cylinder(gps[i].lat, gps[i].lon, color, Opaque(color), DetectSignature(gps[i].co2, gps[i].pm25, gps[i].pm10)))
  }

  /**
   * The outline as `crear_kml` writes it, `color.replace('bb', 'ff')`, also
   * rewrites a green or red byte of 187: PM2.5 632 in a 0–1000 range is filled
   * `bb00bbff` and outlined `ff00ffff` (green 255) instead of `ff00bbff`.
   */
  lemma OutlineCounterexample()
    ensures GetColor(632.0, 0.0, 1000.0) == "bb00bbff"
    ensures OutlineAsWritten(GetColor(632.0, 0.0, 1000.0)) == "ff00ffff"
    ensures Opaque(GetColor(632.0, 0.0, 1000.0)) == "ff00bbff"
  {
    assert Norm(632.0, 0.0, 1000.0) == 0.632;
    assert Trunc(255.0 * (2.0 - 0.632 * 2.0)) == 187;
    assert Hex2(187) == "bb" && Hex2(255) == "ff" && Hex2(0) == "00";
    KmlMission2.OutlineCounterexample();
  }
}
