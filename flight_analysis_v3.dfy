/**
 * The third flight analysis (`software/post-vuelo/python/analizar_vuelo_v3.py`):
 * the signature and colour of each row, and the descent-speed series plotted
 * against altitude.
 */
module FlightAnalysisV3 {
  import opened Wrappers
  import opened PyMath
  import opened CombustionRules

  /** Label and colour of each source in this script. */
  function SignatureLabel(s: Source): (string, string) {
    match s
    case Combustion => ("🔥 Combustión activa", "#FF0000")
    case Diesel => ("🚜 Generador Diésel", "#FF4500")
    case Traffic => ("🚗 Tráfico Vehicular", "#B8860B")
    case Dust => ("🌫️ Polvo", "#808080")
    case Clean => ("🌿 Aire Limpio", "#008000")
    case Mixed => ("🏭 Fuente mixta", "#6A5ACD")
  }

  /** The source `detectar_firma` picks, as the script's chain of tests; missing CO2 is 400 ppm, missing PM2.5 is 0. */
  function DetectSource(co2In: Option<real>, pm25In: Option<real>): Source {
    var co2 := co2In.GetOr(400.0);
    var pm25 := pm25In.GetOr(0.0);
    if co2 > 700.0 && pm25 > 100.0 then Combustion
    else if co2 > 600.0 && pm25 > 80.0 then Diesel
    else if 500.0 <= co2 <= 700.0 && 40.0 <= pm25 <= 100.0 then Traffic
    else if co2 < 480.0 && pm25 > 50.0 then Dust
    else if co2 < 450.0 && pm25 < 12.0 then Clean
    else Mixed
  }

  /** `detectar_firma`: the label and its fixed colour. */
  function DetectSignature(co2: Option<real>, pm25: Option<real>): (string, string) {
    SignatureLabel(DetectSource(co2, pm25))
  }

  /** The chain is the v3 rule table, with the closed traffic box. */
  lemma DetectSourceIsTable(co2: Option<real>, pm25: Option<real>)
    ensures DetectSource(co2, pm25) == V3Signature(co2.GetOr(400.0), pm25.GetOr(0.0))
  {
    V3SignatureUnfold(co2.GetOr(400.0), pm25.GetOr(0.0));
  }

  /**
   * Traffic is the closed box 500–700 ppm by 40–100 µg/m³, both edges of both
   * ranges included, less its upper corner above 600 ppm and 80 µg/m³, which
   * the diesel rule takes first.
   */
  lemma TrafficIff(co2: real, pm25: real)
    ensures DetectSource(Some(co2), Some(pm25)) == Traffic
        <==> 500.0 <= co2 <= 700.0 && 40.0 <= pm25 <= 100.0 && !(co2 > 600.0 && pm25 > 80.0)
  {
  }

  /** A row with neither column is clean air. */
  lemma MissingColumnsAreClean()
    ensures DetectSource(None, None) == Clean
  {
  }

  /** `np.diff(s)`: the differences of neighbours. */
  function Diff(s: seq<real>): (d: seq<real>)
    ensures |s| > 0 ==> |d| == |s| - 1
    ensures |s| == 0 ==> d == []
    ensures forall i :: 0 <= i < |d| ==> d[i] == s[i + 1] - s[i]
  {
    if |s| <= 1 then [] else [s[1] - s[0]] + Diff(s[1..])
  }

  /**
   * `velocidad = np.abs(np.diff(alt, prepend=alt[0]))`; `None` for an empty
   * series, where `alt.iloc[0]` raises.
   */
  function DescentSpeed(alt: seq<real>): (v: Option<seq<real>>)
    ensures v.None? <==> alt == []
    ensures v.Some? ==> |v.value| == |alt| && v.value[0] == 0.0
    ensures v.Some? ==> forall i :: 0 <= i < |alt| ==> v.value[i] >= 0.0
    ensures v.Some? ==> forall i :: 0 < i < |alt| ==> v.value[i] == Abs(alt[i] - alt[i - 1])
  {
    if alt == [] then None
    else
      var d := Diff([alt[0]] + alt);
      Some(seq(|d|, i requires 0 <= i < |d| => Abs(d[i])))
  }

  /** The absolute steps between neighbours, written recursively. */
  function AbsSteps(alt: seq<real>): seq<real> {
    if |alt| <= 1 then [] else [Abs(alt[1] - alt[0])] + AbsSteps(alt[1..])
  }

  lemma {:induction false} AbsStepsAt(alt: seq<real>)
    ensures |alt| > 0 ==> |AbsSteps(alt)| == |alt| - 1
    ensures forall i :: 0 <= i < |AbsSteps(alt)| ==> AbsSteps(alt)[i] == Abs(alt[i + 1] - alt[i])
  {
    if |alt| > 1 {
      AbsStepsAt(alt[1..]);
    }
  }

  predicate Descending(alt: seq<real>) {
    forall i :: 0 < i < |alt| ==> alt[i] <= alt[i - 1]
  }

  lemma {:induction false} AbsStepsSum(alt: seq<real>)
    requires alt != [] && Descending(alt)
    ensures Sum(AbsSteps(alt)) == alt[0] - alt[|alt| - 1]
  {
    if |alt| > 1 {
      AbsStepsSum(alt[1..]);
      assert alt[1] <= alt[0];
    }
  }

  /** On a descent the speeds add up to the height lost: the series telescopes. */
  lemma DescentSpeedSum(alt: seq<real>)
    requires alt != [] && Descending(alt)
    ensures Sum(DescentSpeed(alt).value) == alt[0] - alt[|alt| - 1]
  {
    var v := DescentSpeed(alt).value;
    AbsStepsAt(alt);
    assert v == [0.0] + AbsSteps(alt);
    AbsStepsSum(alt);
  }
}
