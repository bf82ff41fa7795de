/**
 * The second flight analysis (`software/post-vuelo/python/analizar_vuelo_v2.py`):
 * a signature with health advice and a display colour for each row, and the map
 * and KML points of the rows with a latitude.
 */
module FlightAnalysisV2 {
  import opened Wrappers
  import opened Text
  import opened PyMath
  import opened Rules
  import opened KmlColor

  /** The situations the v2 rules tell apart. */
  datatype Situation = DieselCopd | Calima | Pollen | SuspendedDust | UrbanTraffic | CleanAir

  /** The rules in the order they are tried; `CleanAir` is the fallback. */
  const AdviceRules: seq<Rule<Situation>> := [
    Rule(Both(Above(Co2, 850.0), Above(Pm25, 50.0)), DieselCopd),
    Rule(Above(Pm10, 100.0), Calima),
    Rule(Both(Below(Co2, 550.0), Above(Pm10, 65.0)), Pollen),
    Rule(Both(Below(Co2, 480.0), Above(Pm25, 40.0)), SuspendedDust),
    Rule(Either(Above(Co2, 650.0), Above(Pm25, 30.0)), UrbanTraffic)
  ]

  /** Display colour of each situation, as HTML `#RRGGBB`. */
  function AdviceColor(s: Situation): (c: string)
    ensures |c| == 7 && c[0] == '#'
  {
    match s
    case DieselCopd => "#FF0000"
    case Calima => "#696969"
    case Pollen => "#FF8C00"
    case SuspendedDust => "#808080"
    case UrbanTraffic => "#B8860B"
    case CleanAir => "#008000"
  }

  /** Label, advice and colour of each situation. */
  function Triple(s: Situation): (string, string, string) {
    match s
    case DieselCopd => ("🔴 Alerta: Diésel (EPOC)",
      "⚠️ Riesgo de inflamación sistémica. Pacientes con EPOC deben evitar esta zona.", AdviceColor(s))
    case Calima => ("🌫️ Calima / Polvo Mineral",
      "⚠️ Irritación mecánica de las vías aéreas. Se recomienda cerrar ventanas.", AdviceColor(s))
    case Pollen => ("🟠 Alerta: Polen (Asma)",
      "⚠️ Riesgo de broncoespasmo alérgico. Precaución para asmáticos.", AdviceColor(s))
    case SuspendedDust => ("🌫️ Polvo Suspendido",
      "ℹ️ Partículas en suspensión sin origen químico. Evitar deporte intenso.", AdviceColor(s))
    case UrbanTraffic => ("🟡 Tráfico Urbano (Moderado)",
      "ℹ️ Concentración moderada de gases. Ventilar espacios cerrados.", AdviceColor(s))
    case CleanAir => ("🌿 Aire Limpio",
      "✅ Condiciones óptimas para la salud respiratoria.", AdviceColor(s))
  }

  /** A row's sensor columns; a missing column is `None`. */
  datatype Row = Row(lat: real, lon: real, alt: real, co2: Option<real>, pm25: Option<real>, pm10: Option<real>)

  /** The reading `detectar_firma_y_consejo` works on: missing CO2 is 400 ppm, missing PM is 0. */
  function ReadingOf(row: Row): Reading {
    Reading(row.co2.GetOr(400.0), row.pm25.GetOr(0.0), row.pm10.GetOr(0.0), 0.0, 0.0, 0.0, 0.0)
  }

  /**
   * The situation `detectar_firma_y_consejo` picks, as the script's chain of
   * tests; the script returns that situation's fixed triple.
   */
  function ClassifySituation(row: Row): Situation {
    var co2 := row.co2.GetOr(400.0);
    var pm25 := row.pm25.GetOr(0.0);
    var pm10 := row.pm10.GetOr(0.0);
    if co2 > 850.0 && pm25 > 50.0 then DieselCopd
    else if pm10 > 100.0 then Calima
    else if co2 < 550.0 && pm10 > 65.0 then Pollen
    else if co2 < 480.0 && pm25 > 40.0 then SuspendedDust
    else if co2 > 650.0 || pm25 > 30.0 then UrbanTraffic
    else CleanAir
  }

  /** `detectar_firma_y_consejo`: label, advice and colour of a row. */
  function DetectSignatureAndAdvice(row: Row): (string, string, string) {
    Triple(ClassifySituation(row))
  }

  /** The chain is the first-match table, rule for rule. */
  lemma ClassifySituationIsTable(row: Row)
    ensures ClassifySituation(row) == Decide(AdviceRules, CleanAir, ReadingOf(row))
  {
    var r := ReadingOf(row);
    var t := AdviceRules;
    DecideCons(t, CleanAir, r);
    DecideCons(t[1..], CleanAir, r);
    DecideCons(t[2..], CleanAir, r);
    DecideCons(t[3..], CleanAir, r);
    DecideCons(t[4..], CleanAir, r);
    assert t[1..][1..] == t[2..] && t[2..][1..] == t[3..] && t[3..][1..] == t[4..] && t[4..][1..] == [];
  }

  /** Above 100 µg/m³ of PM10 every row that is not diesel is calima: pollen and dust are never reached. */
  lemma CalimaShadowsLaterRules(row: Row)
    requires row.pm10.GetOr(0.0) > 100.0
    requires !(row.co2.GetOr(400.0) > 850.0 && row.pm25.GetOr(0.0) > 50.0)
    ensures Decide(AdviceRules, CleanAir, ReadingOf(row)) == Calima
  {
    ClassifySituationIsTable(row);
  }

  /** A row with none of the three columns is clean air. */
  lemma MissingColumnsAreClean(lat: real, lon: real, alt: real)
    ensures ClassifySituation(Row(lat, lon, alt, None, None, None)) == CleanAir
  {
  }

  /**
   * `kml_col = "ff" + color[5:7] + color[3:5] + color[1:3]`: an opaque KML colour
   * from an HTML `#RRGGBB` colour.
   */
  function KmlFromHtml(color: string): (k: string)
    requires |color| == 7
    ensures |k| == 8
  {
    "ff" + color[5..7] + color[3..5] + color[1..3]
  }

  /** The HTML colour back from a KML colour. */
  function HtmlFromKml(k: string): string
    requires |k| == 8
  {
    "#" + k[6..8] + k[4..6] + k[2..4]
  }

  /** The reordering loses nothing: the HTML colour comes back. */
  lemma KmlFromHtmlRoundTrip(color: string)
    requires |color| == 7 && color[0] == '#'
    ensures HtmlFromKml(KmlFromHtml(color)) == color
  {
    var k := KmlFromHtml(color);
    assert k[6..8] == color[1..3] && k[4..6] == color[3..5] && k[2..4] == color[5..7];
    assert color == [color[0]] + color[1..3] + color[3..5] + color[5..7];
  }

  /** The KML colour is the HTML colour, opaque, with the channel bytes in reverse order. */
  lemma KmlFromHtmlChannels(color: string, red: nat, green: nat, blue: nat)
    requires |color| == 7
    requires ParseHex2(color[1..3]) == Some(red)
    requires ParseHex2(color[3..5]) == Some(green)
    requires ParseHex2(color[5..7]) == Some(blue)
    ensures Decode(KmlFromHtml(color)) == Some(Abgr(255, blue, green, red))
  {
    var k := KmlFromHtml(color);
    assert k[0..2] == "ff" && k[2..4] == color[5..7] && k[4..6] == color[3..5] && k[6..8] == color[1..3];
    assert ParseHex2("ff") == Some(255);
  }

  /** The byte value of an advice colour's channel, for each situation. */
  function AdviceRgb(s: Situation): (nat, nat, nat) {
    match s
    case DieselCopd => (255, 0, 0)
    case Calima => (105, 105, 105)
    case Pollen => (255, 140, 0)
    case SuspendedDust => (128, 128, 128)
    case UrbanTraffic => (184, 134, 11)
    case CleanAir => (0, 128, 0)
  }

  /** Every advice colour becomes a valid opaque KML colour with the same red, green and blue. */
  lemma AdviceColorsConvert(s: Situation)
    ensures Decode(KmlFromHtml(AdviceColor(s))) == Some(Abgr(255, AdviceRgb(s).2, AdviceRgb(s).1, AdviceRgb(s).0))
  {
    HexPairs(s);
    KmlFromHtmlChannels(AdviceColor(s), AdviceRgb(s).0, AdviceRgb(s).1, AdviceRgb(s).2);
  }

  /** The three hex pairs of each advice colour. */
  lemma HexPairs(s: Situation)
    ensures |AdviceColor(s)| == 7 && AdviceColor(s)[0] == '#'
    ensures ParseHex2(AdviceColor(s)[1..3]) == Some(AdviceRgb(s).0)
    ensures ParseHex2(AdviceColor(s)[3..5]) == Some(AdviceRgb(s).1)
    ensures ParseHex2(AdviceColor(s)[5..7]) == Some(AdviceRgb(s).2)
  {
    var c := AdviceColor(s);
    match s
    case DieselCopd => assert c[1..3] == "FF" && c[3..5] == "00" && c[5..7] == "00";
    case Calima => assert c[1..3] == "69" && c[3..5] == "69" && c[5..7] == "69";
    case Pollen => assert c[1..3] == "FF" && c[3..5] == "8C" && c[5..7] == "00";
    case SuspendedDust => assert c[1..3] == "80" && c[3..5] == "80" && c[5..7] == "80";
    case UrbanTraffic => assert c[1..3] == "B8" && c[3..5] == "86" && c[5..7] == "0B";
    case CleanAir => assert c[1..3] == "00" && c[3..5] == "80" && c[5..7] == "00";
  }

  /** The rows `generar_mapas` uses: `lat != 0` (the longitude is not checked). */
  function WithLat(rows: seq<Row>): (kept: seq<Row>)
    ensures |kept| <= |rows|
    ensures forall i :: 0 <= i < |kept| ==> kept[i].lat != 0.0 && kept[i] in rows
  {
    if rows == [] then []
    else
      var r := rows[|rows| - 1];
      WithLat(rows[..|rows| - 1]) + (if r.lat != 0.0 then [r] else [])
  }

  /** Every row with a latitude is kept, as often as it occurs; no other row is. */
  lemma {:induction false} WithLatCounts(rows: seq<Row>, r: Row)
    ensures multiset(WithLat(rows))[r] == if r.lat != 0.0 then multiset(rows)[r] else 0
  {
    if rows != [] {
      var init, last := rows[..|rows| - 1], rows[|rows| - 1];
      assert rows == init + [last];
      WithLatCounts(init, r);
    }
  }

  /**
   * Heat intensity `min(pm2_5 / 100, 1)`: `None` for a row without a PM2.5
   * column, where `r['pm2_5']` raises `KeyError` and no map is written.
   */
  function HeatIntensity(row: Row): (v: Option<real>)
    ensures v.None? <==> row.pm25.None?
    ensures v.Some? ==> v.value <= 1.0
    ensures v.Some? ==> (v.value == 1.0 <==> row.pm25.value >= 100.0)
    ensures v.Some? && row.pm25.value < 100.0 ==> v.value * 100.0 == row.pm25.value
    ensures v.Some? && row.pm25.value >= 0.0 ==> 0.0 <= v.value
  {
    match row.pm25
    case None => None
    case Some(pm25) => Some(Min(pm25 / 100.0, 1.0))
  }

  /** One map marker and KML point. */
  datatype Placemark = Placemark(lat: real, lon: real, alt: real, title: string, advice: string, color: string, kmlColor: string)

  /**
   * The marker of one row: at the row's position and altitude, with the label,
   * advice and HTML colour of its situation, and as KML colour that colour made
   * opaque with its red, green and blue bytes unchanged.
   */
  function MakePlacemark(row: Row): (p: Placemark)
    ensures p.lat == row.lat && p.lon == row.lon && p.alt == row.alt
    ensures (p.title, p.advice, p.color) == DetectSignatureAndAdvice(row)
    ensures var rgb := AdviceRgb(Decide(AdviceRules, CleanAir, ReadingOf(row)));
      Decode(p.kmlColor) == Some(Abgr(255, rgb.2, rgb.1, rgb.0))
    ensures HtmlFromKml(p.kmlColor) == p.color
  {
    var s := ClassifySituation(row);
    var (title, advice, _) := Triple(s);
    ClassifySituationIsTable(row);
    AdviceColorsConvert(s);
    KmlFromHtmlRoundTrip(AdviceColor(s));
    Placemark(row.lat, row.lon, row.alt, title, advice, AdviceColor(s), KmlFromHtml(AdviceColor(s)))
  }

  /** Some row lacks the PM2.5 column. */
  predicate MissingPm25(rows: seq<Row>) {
    exists i :: 0 <= i < |rows| && rows[i].pm25.None?
  }

  /**
   * The heat layer and the markers of `generar_mapas`: rows with `lat == 0` give
   * neither, every other row gives one of each, in order. The heat layer is built
   * first, so a kept row without PM2.5 stops the script (`None`) before any marker.
   */
  function MapLayers(rows: seq<Row>): (r: Option<(seq<(real, real, real)>, seq<Placemark>)>)
    ensures r.None? <==> MissingPm25(WithLat(rows))
    ensures r.Some? ==> |r.value.0| == |r.value.1| == |WithLat(rows)|
    ensures r.Some? ==> forall i :: 0 <= i < |r.value.1| ==>
      var k := WithLat(rows)[i];
      HeatIntensity(k).Some? && r.value.0[i] == (k.lat, k.lon, HeatIntensity(k).value)
      && r.value.1[i] == MakePlacemark(k)
  {
    var kept := WithLat(rows);
    if MissingPm25(kept) then None
    else
      Some((seq(|kept|, i requires 0 <= i < |kept| => (kept[i].lat, kept[i].lon, HeatIntensity(kept[i]).value)),
            seq(|kept|, i requires 0 <= i < |kept| => MakePlacemark(kept[i]))))
  }
}
