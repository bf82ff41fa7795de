/**
 * What the two flight simulators share: the flight phase chosen from the
 * altitude before each step, the nominal descent speed of each phase, and the
 * first-match lookup of an altitude in a table of pollution zones.
 */
module SimulatorCommon {
  import opened Wrappers

  /** `caida_libre`, `apertura`, `descenso` and the ground records' phase. */
  datatype Phase = FreeFall | ChuteOpening | Descent | Ground

  /** The phase name written to the CSV `fase` column. */
  function PhaseName(p: Phase): string {
    match p
    case FreeFall => "caida_libre"
    case ChuteOpening => "apertura"
    case Descent => "descenso"
    case Ground => "tierra"
  }

  /** `ALT_APERTURA_PARACAIDAS`: the chute opens at 900 m above the terrain. */
  const ChuteAltitude: real := 900.0

  /**
   * The phase a step is flown in, from the altitude before the step: free fall
   * above 900 m, chute opening in the 20 m below, steady descent from 880 m down.
   */
  function PhaseOf(alt: real): (p: Phase)
    ensures p == FreeFall <==> alt > 900.0
    ensures p == ChuteOpening <==> 880.0 < alt <= 900.0
    ensures p == Descent <==> alt <= 880.0
  {
    if alt > ChuteAltitude then FreeFall
    else if alt > ChuteAltitude - 20.0 then ChuteOpening
    else Descent
  }

  /** Speed in m/s: `VELOCIDAD_CAIDA_LIBRE`, twice `VELOCIDAD_PARACAIDAS`, `VELOCIDAD_PARACAIDAS`. */
  function Speed(p: Phase): (v: real)
    ensures p != Ground ==> 9.0 <= v <= 25.0
  {
    match p
    case FreeFall => 25.0
    case ChuteOpening => 18.0
    case Descent => 9.0
    case Ground => 0.0
  }

  /** Order of the phases in a flight. */
  function PhaseRank(p: Phase): nat {
    match p
    case FreeFall => 0
    case ChuteOpening => 1
    case Descent => 2
    case Ground => 3
  }

  /** Losing altitude never moves the phase back. */
  lemma PhaseMonotone(lower: real, higher: real)
    requires lower <= higher
    ensures PhaseRank(PhaseOf(higher)) <= PhaseRank(PhaseOf(lower))
  {
  }

  /** One row of a pollution table: `(alt_min, alt_max, co2_base, pm25_base, descripcion)`. */
  datatype Zone = Zone(altMin: real, altMax: real, co2Base: real, pm25Base: real)

  predicate InZone(z: Zone, alt: real) {
    z.altMin <= alt < z.altMax
  }

  /** The first zone whose half-open range `[alt_min, alt_max)` holds `alt`. */
  function ZoneOf(zones: seq<Zone>, alt: real): Option<Zone> {
    if zones == [] then None
    else if InZone(zones[0], alt) then Some(zones[0])
    else ZoneOf(zones[1..], alt)
  }

  /** The zone found holds `alt` and comes from the table; nothing is found only when no zone holds `alt`. */
  lemma {:induction false} ZoneOfSound(zones: seq<Zone>, alt: real)
    ensures ZoneOf(zones, alt).None? <==> forall i :: 0 <= i < |zones| ==> !InZone(zones[i], alt)
    ensures ZoneOf(zones, alt).Some? ==> ZoneOf(zones, alt).value in zones && InZone(ZoneOf(zones, alt).value, alt)
  {
    if zones != [] && !InZone(zones[0], alt) {
      ZoneOfSound(zones[1..], alt);
      assert forall i :: 1 <= i < |zones| ==> zones[i] == zones[1..][i - 1];
    }
  }

  /** Zones earlier in the table win: the first zone holding `alt` is the one found. */
  lemma {:induction false} ZoneOfFirst(zones: seq<Zone>, alt: real, i: nat)
    requires i < |zones| && InZone(zones[i], alt)
    requires forall j :: 0 <= j < i ==> !InZone(zones[j], alt)
    ensures ZoneOf(zones, alt) == Some(zones[i])
  {
    if i > 0 {
      ZoneOfFirst(zones[1..], alt, i - 1);
    }
  }

  /** The `for ... in TABLE: if alt_min <= alt < alt_max: return ...` search. */
  method FindZone(zones: seq<Zone>, alt: real) returns (r: Option<Zone>)
    ensures r == ZoneOf(zones, alt)
  {
    var k := 0;
    while k < |zones|
      invariant 0 <= k <= |zones|
      invariant ZoneOf(zones, alt) == ZoneOf(zones[k..], alt)
    {
      if zones[k].altMin <= alt < zones[k].altMax {
        return Some(zones[k]);
      }
      assert zones[k..][1..] == zones[k + 1..];
      k := k + 1;
    }
    return None;
  }
}
