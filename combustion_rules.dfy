/**
 * The CO2/PM2.5 combustion-signature rules of the flight analyses
 * (`analizar_vuelo.py` and `analizar_vuelo_v3.py`). The two copies differ only
 * in the traffic rule: an open lower bound in one, a closed box in the other.
 */
module CombustionRules {
  import opened Rules

  /** The sources the CO2/PM2.5 rules tell apart. */
  datatype Source = Combustion | Diesel | Traffic | Dust | Clean | Mixed

  function PmReading(co2: real, pm25: real, pm10: real): Reading {
    Reading(co2, pm25, pm10, 0.0, 0.0, 0.0, 0.0)
  }

  /** The rules of `analizar_vuelo.py`; `Mixed` is the fallback. */
  const FlightRules: seq<Rule<Source>> := [
    Rule(Both(Above(Co2, 700.0), Above(Pm25, 100.0)), Combustion),
    Rule(Both(Above(Co2, 600.0), Above(Pm25, 80.0)), Diesel),
    Rule(Both(Above(Co2, 500.0), Above(Pm25, 40.0)), Traffic),
    Rule(Both(Below(Co2, 480.0), Above(Pm25, 50.0)), Dust),
    Rule(Both(Below(Co2, 450.0), Below(Pm25, 12.0)), Clean)
  ]

  /** The rules of `analizar_vuelo_v3.py`: traffic is the closed box 500–700 ppm by 40–100 µg/m³. */
  const V3Rules: seq<Rule<Source>> := [
    Rule(Both(Above(Co2, 700.0), Above(Pm25, 100.0)), Combustion),
    Rule(Both(Above(Co2, 600.0), Above(Pm25, 80.0)), Diesel),
    Rule(Both(Both(AtLeast(Co2, 500.0), AtMost(Co2, 700.0)), Both(AtLeast(Pm25, 40.0), AtMost(Pm25, 100.0))), Traffic),
    Rule(Both(Below(Co2, 480.0), Above(Pm25, 50.0)), Dust),
    Rule(Both(Below(Co2, 450.0), Below(Pm25, 12.0)), Clean)
  ]

  function FlightSignature(co2: real, pm25: real, pm10: real): Source {
    Decide(FlightRules, Mixed, PmReading(co2, pm25, pm10))
  }

  function V3Signature(co2: real, pm25: real): Source {
    Decide(V3Rules, Mixed, PmReading(co2, pm25, 0.0))
  }

  /** The `analizar_vuelo.py` table unrolled into its chain of tests. */
  lemma FlightSignatureUnfold(co2: real, pm25: real, pm10: real)
    ensures FlightSignature(co2, pm25, pm10)
         == if co2 > 700.0 && pm25 > 100.0 then Combustion
            else if co2 > 600.0 && pm25 > 80.0 then Diesel
            else if co2 > 500.0 && pm25 > 40.0 then Traffic
            else if co2 < 480.0 && pm25 > 50.0 then Dust
            else if co2 < 450.0 && pm25 < 12.0 then Clean
            else Mixed
  {
    var r := PmReading(co2, pm25, pm10);
    var t := FlightRules;
    DecideCons(t, Mixed, r);
    DecideCons(t[1..], Mixed, r);
    DecideCons(t[2..], Mixed, r);
    DecideCons(t[3..], Mixed, r);
    DecideCons(t[4..], Mixed, r);
    assert t[1..][1..] == t[2..] && t[2..][1..] == t[3..] && t[3..][1..] == t[4..] && t[4..][1..] == [];
  }

  /** The `analizar_vuelo_v3.py` table unrolled into its chain of tests. */
  lemma V3SignatureUnfold(co2: real, pm25: real)
    ensures V3Signature(co2, pm25)
         == if co2 > 700.0 && pm25 > 100.0 then Combustion
            else if co2 > 600.0 && pm25 > 80.0 then Diesel
            else if 500.0 <= co2 <= 700.0 && 40.0 <= pm25 <= 100.0 then Traffic
            else if co2 < 480.0 && pm25 > 50.0 then Dust
            else if co2 < 450.0 && pm25 < 12.0 then Clean
            else Mixed
  {
    var r := PmReading(co2, pm25, 0.0);
    var t := V3Rules;
    DecideCons(t, Mixed, r);
    DecideCons(t[1..], Mixed, r);
    DecideCons(t[2..], Mixed, r);
    DecideCons(t[3..], Mixed, r);
    DecideCons(t[4..], Mixed, r);
    assert t[1..][1..] == t[2..] && t[2..][1..] == t[3..] && t[3..][1..] == t[4..] && t[4..][1..] == [];
    assert Holds(t[2].when, r) <==> 500.0 <= co2 <= 700.0 && 40.0 <= pm25 <= 100.0 by {
      assert Holds(t[2].when.left, r) <==> 500.0 <= co2 <= 700.0;
      assert Holds(t[2].when.right, r) <==> 40.0 <= pm25 <= 100.0;
    }
  }

  /** No rule of `analizar_vuelo.py` reads PM10, so the decision never depends on it. */
  lemma FlightSignatureIgnoresPm10(co2: real, pm25: real, p: real, q: real)
    ensures FlightSignature(co2, pm25, p) == FlightSignature(co2, pm25, q)
  {
    var t := FlightRules;
    forall j, ch | 0 <= j < |t| && ch in Reads(t[j].when)
      ensures Value(PmReading(co2, pm25, p), ch) == Value(PmReading(co2, pm25, q), ch)
    {
      assert ch == Co2 || ch == Pm25;
    }
    DecideIgnores(t, Mixed, PmReading(co2, pm25, p), PmReading(co2, pm25, q));
  }

  /**
   * The two copies disagree at the traffic rule's edges: on the closed lower
   * edge only the v3 copy reports traffic, and above 700 ppm only the other one does.
   */
  lemma CopiesDisagreeOnTrafficEdges()
    ensures V3Signature(500.0, 50.0) == Traffic && FlightSignature(500.0, 50.0, 0.0) == Mixed
    ensures V3Signature(750.0, 50.0) == Mixed && FlightSignature(750.0, 50.0, 0.0) == Traffic
  {
    V3SignatureUnfold(500.0, 50.0);
    FlightSignatureUnfold(500.0, 50.0, 0.0);
    V3SignatureUnfold(750.0, 50.0);
    FlightSignatureUnfold(750.0, 50.0, 0.0);
  }

  /** Inside the traffic band, or below either of its lower edges, the two copies agree. */
  lemma CopiesAgreeInside(co2: real, pm25: real, pm10: real)
    requires (500.0 < co2 <= 700.0 && 40.0 < pm25 <= 100.0) || co2 < 500.0 || pm25 < 40.0
    ensures V3Signature(co2, pm25) == FlightSignature(co2, pm25, pm10)
  {
    V3SignatureUnfold(co2, pm25);
    FlightSignatureUnfold(co2, pm25, pm10);
  }
}
