/**
 * The mission-2 gas-sensor rules that five scripts copy: the TVOC air-quality
 * cut points and the combustion-signature decision over TVOC, eCO2, H2 and
 * ethanol. Each script's own `if/elif` chain is proved equal to these.
 */
module TvocRules {
  import opened Rules
  import opened Bands
  import opened PyMath

  /** TVOC cut points in ppb: excellent below 220, very poor from 5500 on. */
  const TvocCuts := Cuts(220.0, 660.0, 2200.0, 5500.0)

  /** The pollution sources the signature rules tell apart. */
  datatype Source = Diesel | Biomass | Traffic | Severe | Clean | Industrial

  /** The signature rules in the order they are tried; `Industrial` is the fallback. */
  const SignatureRules: seq<Rule<Source>> := [
    Rule(Both(Above(Tvoc, 1000.0), Above(H2, 13000.0)), Diesel),
    Rule(Both(Above(Tvoc, 500.0), Above(Ethanol, 18000.0)), Biomass),
    Rule(Both(Both(Above(Tvoc, 300.0), Above(ECo2, 1000.0)), Below(Tvoc, 800.0)), Traffic),
    Rule(Above(Tvoc, 5000.0), Severe),
    Rule(Below(Tvoc, 100.0), Clean)
  ]

  function GasReading(tvoc: real, eco2: real, h2: real, ethanol: real): Reading {
    Reading(0.0, 0.0, 0.0, tvoc, eco2, h2, ethanol)
  }

  /** Reference signature of one gas reading. */
  function Signature(tvoc: real, eco2: real, h2: real, ethanol: real): Source {
    Decide(SignatureRules, Industrial, GasReading(tvoc, eco2, h2, ethanol))
  }

  /** The table unrolled into the chain of tests the scripts write. */
  lemma SignatureUnfold(tvoc: real, eco2: real, h2: real, ethanol: real)
    ensures Signature(tvoc, eco2, h2, ethanol)
         == if tvoc > 1000.0 && h2 > 13000.0 then Diesel
            else if tvoc > 500.0 && ethanol > 18000.0 then Biomass
            else if tvoc > 300.0 && eco2 > 1000.0 && tvoc < 800.0 then Traffic
            else if tvoc > 5000.0 then Severe
            else if tvoc < 100.0 then Clean
            else Industrial
  {
    var r := GasReading(tvoc, eco2, h2, ethanol);
    var t := SignatureRules;
    DecideCons(t, Industrial, r);
    DecideCons(t[1..], Industrial, r);
    DecideCons(t[2..], Industrial, r);
    DecideCons(t[3..], Industrial, r);
    DecideCons(t[4..], Industrial, r);
    assert t[1..][1..] == t[2..] && t[2..][1..] == t[3..] && t[3..][1..] == t[4..] && t[4..][1..] == [];
    assert Holds(t[2].when, r) <==> tvoc > 300.0 && eco2 > 1000.0 && tvoc < 800.0 by {
      assert Holds(t[2].when.left, r) <==> tvoc > 300.0 && eco2 > 1000.0;
    }
  }

  /**
   * Severe pollution is reported only above 5000 ppb and only when neither the
   * diesel nor the biomass rule fired (the traffic rule cannot fire that high).
   */
  lemma SevereIff(tvoc: real, eco2: real, h2: real, ethanol: real)
    ensures Signature(tvoc, eco2, h2, ethanol) == Severe <==> tvoc > 5000.0 && h2 <= 13000.0 && ethanol <= 18000.0
  {
    SignatureUnfold(tvoc, eco2, h2, ethanol);
  }

  /** A reading above 5000 ppb with high H2 is diesel, not severe: rule order decides. */
  lemma DieselBeforeSevere(eco2: real, h2: real, ethanol: real)
    requires h2 > 13000.0
    ensures Signature(6000.0, eco2, h2, ethanol) == Diesel
  {
    SignatureUnfold(6000.0, eco2, h2, ethanol);
  }

  /** Traffic needs 300 < tvoc < 800 and eCO2 above 1000, and loses only to biomass. */
  lemma TrafficIff(tvoc: real, eco2: real, h2: real, ethanol: real)
    ensures Signature(tvoc, eco2, h2, ethanol) == Traffic
        <==> 300.0 < tvoc < 800.0 && eco2 > 1000.0 && !(tvoc > 500.0 && ethanol > 18000.0)
  {
    SignatureUnfold(tvoc, eco2, h2, ethanol);
  }

  /** Clean air is exactly TVOC below 100 ppb: every earlier rule needs more than 300. */
  lemma CleanIff(tvoc: real, eco2: real, h2: real, ethanol: real)
    ensures Signature(tvoc, eco2, h2, ethanol) == Clean <==> tvoc < 100.0
  {
    SignatureUnfold(tvoc, eco2, h2, ethanol);
  }

  /** One mission-2 row: GPS position and the gas-sensor channels. */
  datatype GasSample = GasSample(lat: real, lon: real, tvoc: real, eco2: real, h2: real, ethanol: real)

  /** A GPS fix: the receiver writes 0 for both coordinates until it has one. */
  predicate HasFix(s: GasSample) {
    s.lat != 0.0 && s.lon != 0.0
  }

  /** The rows with a GPS fix, in order: `df[(df['lat'] != 0) & (df['lon'] != 0)]`. */
  function WithFix(rows: seq<GasSample>): (gps: seq<GasSample>)
    ensures |gps| <= |rows|
    ensures forall i :: 0 <= i < |gps| ==> HasFix(gps[i]) && gps[i] in rows
  {
    if rows == [] then []
    else WithFix(rows[..|rows| - 1]) + (if HasFix(rows[|rows| - 1]) then [rows[|rows| - 1]] else [])
  }

  /**
   * The filter keeps every row with a fix and drops every other: each row
   * occurs in the result exactly as often as in the input when it has a fix,
   * and not at all otherwise.
   */
  lemma {:induction false} WithFixCounts(rows: seq<GasSample>, s: GasSample)
    ensures multiset(WithFix(rows))[s] == if HasFix(s) then multiset(rows)[s] else 0
  {
    if rows != [] {
      var init, last := rows[..|rows| - 1], rows[|rows| - 1];
      assert rows == init + [last];
      WithFixCounts(init, s);
    }
  }

  /** One heat-map point: position and intensity. */
  datatype HeatPoint = HeatPoint(lat: real, lon: real, intensity: real)

  /** Heat intensity `min(tvoc / scale, 1.0)`. */
  function Intensity(tvoc: real, scale: real): (v: real)
    requires scale > 0.0
    ensures v <= 1.0
    ensures tvoc >= 0.0 ==> 0.0 <= v
    ensures v == 1.0 <==> tvoc >= scale
  {
    Min(tvoc / scale, 1.0)
  }

  /** Heat points of the rows with a GPS fix, in order. */
  function HeatPoints(rows: seq<GasSample>, scale: real): (pts: seq<HeatPoint>)
    requires scale > 0.0
    ensures |pts| == |WithFix(rows)|
    ensures forall i :: 0 <= i < |pts| ==>
      pts[i] == HeatPoint(WithFix(rows)[i].lat, WithFix(rows)[i].lon, Intensity(WithFix(rows)[i].tvoc, scale))
  {
    var gps := WithFix(rows);
    seq(|gps|, i requires 0 <= i < |gps| => HeatPoint(gps[i].lat, gps[i].lon, Intensity(gps[i].tvoc, scale)))
  }

  /** Marker colours of the mission-2 maps. */
  datatype Marker = Green | Orange | Red
}
