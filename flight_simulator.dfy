/**
 * The mission-2 flight simulator (`software/post-vuelo/python/simulador_vuelo.py`):
 * the physics helpers and the descent loop that, on touching the ground,
 * writes five ground records and stops.
 */
module FlightSimulator {
  import opened Wrappers
  import opened PyMath
  import opened SimulatorCommon

  const GroundTemp: real := 12.0
  const LapseRate: real := 6.5
  const GroundHumidity: real := 55.0
  const TerrainAltitude: real := 650.0
  const LaunchAltitude: real := 1000.0

  /** `calcular_temperatura`: 12 °C at the ground, 6.5 °C colder per km. */
  function Temperature(alt: real): real {
    GroundTemp - (alt / 1000.0) * LapseRate
  }

  /** Higher is always colder: the profile has no inversion. */
  lemma TemperatureDecreasing(x: real, y: real)
    requires x < y
    ensures Temperature(y) < Temperature(x)
    ensures Temperature(x) - Temperature(y) == (y - x) * 0.0065
  {
  }

  /** `calcular_humedad`: 55 % plus 2 % per 100 m, plus a draw in [-3, 3], kept within [30, 85]. */
  function Humidity(alt: real, noise: real): (h: real)
    ensures 30.0 <= h <= 85.0
    ensures 30.0 <= GroundHumidity + (alt / 100.0) * 2.0 + noise <= 85.0 ==>
      h == GroundHumidity + (alt / 100.0) * 2.0 + noise
  {
    Min(85.0, Max(30.0, GroundHumidity + (alt / 100.0) * 2.0 + noise))
  }

  /** `ZONAS_CONTAMINACION`, top to bottom. */
  const Zones: seq<Zone> := [
    Zone(800.0, 1000.0, 415.0, 8.0),
    Zone(500.0, 800.0, 430.0, 15.0),
    Zone(300.0, 500.0, 480.0, 35.0),
    Zone(100.0, 300.0, 520.0, 55.0),
    Zone(0.0, 100.0, 580.0, 75.0)
  ]

  /** The zones tile `[0, 1000)`: an altitude outside every zone is negative or at least 1000 m. */
  lemma ZonesCover(alt: real)
    ensures ZoneOf(Zones, alt).None? <==> alt < 0.0 || alt >= 1000.0
  {
    ZoneOfSound(Zones, alt);
    if 0.0 <= alt < 1000.0 {
      var i := if alt >= 800.0 then 0 else if alt >= 500.0 then 1 else if alt >= 300.0 then 2
        else if alt >= 100.0 then 3 else 4;
      assert InZone(Zones[i], alt);
    }
  }

  /** Pollution baselines fall with height: a lower zone has more CO2 and more PM2.5. */
  lemma ZonesCleanerWithHeight(i: nat, j: nat)
    requires i < j < |Zones|
    ensures Zones[i].co2Base < Zones[j].co2Base && Zones[i].pm25Base < Zones[j].pm25Base
    ensures Zones[j].altMax == Zones[j - 1].altMin
  {
  }

  /** The draws of one pollution reading. */
  datatype PollutionDraws = PollutionDraws(co2Noise: real, pmNoise: real, pm1Ratio: real, pm10Ratio: real)

  predicate ValidPollutionDraws(d: PollutionDraws) {
    -20.0 <= d.co2Noise <= 30.0 && -5.0 <= d.pmNoise <= 10.0
    && 0.6 <= d.pm1Ratio <= 0.8 && 1.2 <= d.pm10Ratio <= 1.5
  }

  /** `(co2, pm1_0, pm2_5, pm10)`, each truncated by `int()`. */
  datatype Pollution = Pollution(co2: int, pm1: int, pm25: int, pm10: int)

  const DefaultPollution := Pollution(420, 5, 8, 12)

  /** The readings of `obtener_contaminacion` once the zone is known; the default outside every zone. */
  function ZoneReadings(zone: Option<Zone>, d: PollutionDraws): (p: Pollution)
    ensures zone.None? ==> p == DefaultPollution
  {
    match zone
    case None => DefaultPollution
    case Some(z) =>
      var pm25 := z.pm25Base + d.pmNoise;
      Pollution(Trunc(z.co2Base + d.co2Noise), Trunc(pm25 * d.pm1Ratio), Trunc(pm25), Trunc(pm25 * d.pm10Ratio))
  }

  /**
   * In a zone with a PM2.5 base of at least 5, valid draws keep the particle
   * sizes in order (PM1.0 ≤ PM2.5 ≤ PM10, none negative) and CO2 within the
   * drawn band around the zone's base.
   */
  lemma ZoneReadingsBounds(z: Zone, d: PollutionDraws)
    requires ValidPollutionDraws(d) && z.pm25Base >= 5.0 && z.co2Base >= 20.0
    ensures var p := ZoneReadings(Some(z), d);
      0 <= p.pm1 <= p.pm25 <= p.pm10
      && z.co2Base - 21.0 < p.co2 as real <= z.co2Base + 30.0
  {
    ScaledTruncOrder(z.pm25Base + d.pmNoise, d.pm1Ratio, d.pm10Ratio);
  }

  /** `obtener_contaminacion`: the readings of the first zone holding `alt`. */
  function PollutionOf(alt: real, d: PollutionDraws): Pollution {
    ZoneReadings(ZoneOf(Zones, alt), d)
  }

  /** Every reading, zone or default, keeps the particle sizes in order: PM1.0 ≤ PM2.5 ≤ PM10. */
  lemma ParticlesOrdered(alt: real, d: PollutionDraws)
    requires ValidPollutionDraws(d)
    ensures 0 <= PollutionOf(alt, d).pm1 <= PollutionOf(alt, d).pm25 <= PollutionOf(alt, d).pm10
  {
    ZoneOfSound(Zones, alt);
    if ZoneOf(Zones, alt).Some? {
      ZoneReadingsBounds(ZoneOf(Zones, alt).value, d);
    }
  }

  /** `obtener_contaminacion` as a method: the zone search loop, then the readings of the zone found. */
  method ObtainPollution(alt: real, d: PollutionDraws) returns (p: Pollution)
    ensures p == PollutionOf(alt, d)
  {
    var zone := FindZone(Zones, alt);
    p := ZoneReadings(zone, d);
  }

  /** The draws one record uses. */
  datatype StepDraws = StepDraws(altNoise: real, tempNoise: real, humNoise: real, groundHumNoise: real,
                                 pollution: PollutionDraws)

  predicate ValidStep(d: StepDraws) {
    -0.5 <= d.altNoise <= 0.5 && -0.3 <= d.tempNoise <= 0.3 && -3.0 <= d.humNoise <= 3.0
    && -2.0 <= d.groundHumNoise <= 2.0 && ValidPollutionDraws(d.pollution)
  }

  /** One second of flight: `altitud -= velocidad`, `altitud += uniform(-0.5, 0.5)`, then `max(0, altitud)`. */
  function Step(alt: real, d: StepDraws): (next: real)
    ensures next >= 0.0
    ensures alt > 0.0 && ValidStep(d) ==> next < alt && (next == 0.0 || next <= alt - 8.5)
  {
    Max(0.0, alt - Speed(PhaseOf(alt)) * 1.0 + d.altNoise)
  }

  /** One CSV record, reduced to the values the model follows (`lat`, `lon`, pressure and IMU are left out). */
  datatype SimRecord = SimRecord(timestamp: int, alt: real, altSea: real, phase: Phase,
                                 temp: real, hum: real, pollution: Pollution)

  /** The record written at second `t` of a flight step taken from altitude `prev`. */
  function FlightRecord(t: int, prev: real, d: StepDraws): (r: SimRecord)
    ensures r.phase == PhaseOf(prev) && r.alt == Step(prev, d) && r.altSea == TerrainAltitude + r.alt
    ensures ValidStep(d) ==> Abs(r.temp - Temperature(r.alt)) <= 0.3
  {
    var alt := Step(prev, d);
    SimRecord(t, alt, TerrainAltitude + alt, PhaseOf(prev), Temperature(alt) + d.tempNoise,
      Humidity(alt, d.humNoise), PollutionOf(alt, d.pollution))
  }

  /** One of the five records written after landing. */
  function GroundRecord(t: int, d: StepDraws): SimRecord {
    SimRecord(t, 0.0, TerrainAltitude, Ground, GroundTemp + d.tempNoise, GroundHumidity + d.groundHumNoise,
      PollutionOf(0.0, d.pollution))
  }

  /** Reference run of the descent loop from altitude `alt` at second `t`. */
  function FlightFrom(alt: real, t: nat, draw: nat -> StepDraws): seq<SimRecord>
    requires forall s :: ValidStep(draw(s))
    decreases if alt > 0.0 then alt.Floor + 1 else 0
  {
    if alt <= 0.0 then [] else [FlightRecord(t, alt, draw(t))] + FlightFrom(Step(alt, draw(t)), t + 1, draw)
  }

  /** One step of the reference run: the record of this second, then the run from the next altitude, which is lower by at least one whole metre. */
  lemma FlightFromCons(recs: seq<SimRecord>, alt: real, t: nat, draw: nat -> StepDraws)
    requires forall s :: ValidStep(draw(s))
    requires alt > 0.0
    ensures recs + FlightFrom(alt, t, draw)
         == (recs + [FlightRecord(t, alt, draw(t))]) + FlightFrom(Step(alt, draw(t)), t + 1, draw)
    ensures Step(alt, draw(t)) > 0.0 ==> Step(alt, draw(t)).Floor < alt.Floor
  {
    assert FlightFrom(alt, t, draw) == [FlightRecord(t, alt, draw(t))] + FlightFrom(Step(alt, draw(t)), t + 1, draw);
  }

  /** Once the altitude is 0 the reference run has nothing left to add. */
  lemma FlightLanded(recs: seq<SimRecord>, alt: real, t: nat, draw: nat -> StepDraws)
    requires forall s :: ValidStep(draw(s))
    requires alt <= 0.0 && recs + FlightFrom(alt, t, draw) == FlightFrom(LaunchAltitude, 0, draw)
    ensures recs == FlightFrom(LaunchAltitude, 0, draw)
  {
    assert recs + [] == recs;
  }

  /** `n` ground records, from second `t` on. */
  function GroundTail(t: nat, n: nat, draw: nat -> StepDraws): (tail: seq<SimRecord>)
    ensures |tail| == n
    ensures forall j :: 0 <= j < n ==> tail[j] == GroundRecord(t + j, draw(t + j))
  {
    if n == 0 then [] else GroundTail(t, n - 1, draw) + [GroundRecord(t + n - 1, draw(t + n - 1))]
  }

  /**
   * The whole output of `simular_vuelo`: the descent from the launch altitude,
   * then five ground records; `tiempo` is bumped once after the last flight
   * record and again before each ground record, so they start one second late.
   */
  function Run(draw: nat -> StepDraws): seq<SimRecord>
    requires forall s :: ValidStep(draw(s))
  {
    var flight := FlightFrom(LaunchAltitude, 0, draw);
    flight + GroundTail(|flight| + 1, 5, draw)
  }

  /** Timestamps of a descent count up by one from its first second; no flight record is on the ground. */
  lemma {:induction false} FlightTimes(alt: real, t: nat, draw: nat -> StepDraws)
    requires forall s :: ValidStep(draw(s))
    ensures |FlightFrom(alt, t, draw)| > 0 <==> alt > 0.0
    ensures forall k :: 0 <= k < |FlightFrom(alt, t, draw)| ==>
      FlightFrom(alt, t, draw)[k].timestamp == t + k && FlightFrom(alt, t, draw)[k].phase != Ground
    decreases if alt > 0.0 then alt.Floor + 1 else 0
  {
    if alt > 0.0 {
      var recs := FlightFrom(alt, t, draw);
      var rest := FlightFrom(Step(alt, draw(t)), t + 1, draw);
      FlightTimes(Step(alt, draw(t)), t + 1, draw);
      assert recs == [FlightRecord(t, alt, draw(t))] + rest;
      assert forall k :: 0 < k < |recs| ==> recs[k].timestamp == rest[k - 1].timestamp && recs[k].phase == rest[k - 1].phase;
    }
  }

  /** A descent from a positive altitude ends on the ground: every record is lower than the one before, and only the last is at 0 m. */
  lemma {:induction false} FlightAltitudes(alt: real, t: nat, draw: nat -> StepDraws)
    requires forall s :: ValidStep(draw(s))
    requires alt > 0.0
    ensures |FlightFrom(alt, t, draw)| > 0
    ensures FlightFrom(alt, t, draw)[|FlightFrom(alt, t, draw)| - 1].alt == 0.0
    ensures forall k :: 0 <= k < |FlightFrom(alt, t, draw)| - 1 ==> FlightFrom(alt, t, draw)[k].alt > 0.0
    ensures forall k :: 0 < k < |FlightFrom(alt, t, draw)| ==>
      FlightFrom(alt, t, draw)[k].alt < FlightFrom(alt, t, draw)[k - 1].alt
    decreases alt.Floor + 1
  {
    var next := Step(alt, draw(t));
    var recs := FlightFrom(alt, t, draw);
    var rest := FlightFrom(next, t + 1, draw);
    assert recs == [FlightRecord(t, alt, draw(t))] + rest;
    assert recs[0].alt == next;
    if next > 0.0 {
      FlightAltitudes(next, t + 1, draw);
      assert forall k :: 0 < k < |recs| ==> recs[k].alt == rest[k - 1].alt;
    }
  }

  /** Along a descent the phases never go back, starting from the phase of the starting altitude. */
  lemma {:induction false} FlightPhases(alt: real, t: nat, draw: nat -> StepDraws)
    requires forall s :: ValidStep(draw(s))
    ensures forall k :: 0 <= k < |FlightFrom(alt, t, draw)| ==>
      PhaseRank(PhaseOf(alt)) <= PhaseRank(FlightFrom(alt, t, draw)[k].phase)
    ensures forall k :: 0 < k < |FlightFrom(alt, t, draw)| ==>
      PhaseRank(FlightFrom(alt, t, draw)[k - 1].phase) <= PhaseRank(FlightFrom(alt, t, draw)[k].phase)
    decreases if alt > 0.0 then alt.Floor + 1 else 0
  {
    if alt > 0.0 {
      var next := Step(alt, draw(t));
      var recs := FlightFrom(alt, t, draw);
      var rest := FlightFrom(next, t + 1, draw);
      assert recs == [FlightRecord(t, alt, draw(t))] + rest;
      FlightPhases(next, t + 1, draw);
      PhaseMonotone(next, alt);
      assert recs[0].phase == PhaseOf(alt);
      assert forall k :: 0 < k < |recs| ==> recs[k].phase == rest[k - 1].phase;
    }
  }

  /** The `for i in range(5)` loop: `tiempo` is bumped before each ground record. */
  method AppendGround(flight: seq<SimRecord>, time0: nat, draw: nat -> StepDraws) returns (recs: seq<SimRecord>, time: nat)
    ensures recs == flight + GroundTail(time0 + 1, 5, draw)
    ensures time == time0 + 5
  {
    recs := flight;
    time := time0;
    for j := 0 to 5
      invariant time == time0 + j
      invariant recs == flight + GroundTail(time0 + 1, j, draw)
    {
      time := time + 1;
      var pollution := ObtainPollution(0.0, draw(time).pollution);
      var d := draw(time);
      recs := recs + [SimRecord(time, 0.0, TerrainAltitude, Ground, GroundTemp + d.tempNoise,
        GroundHumidity + d.groundHumNoise, pollution)];
    }
  }

  /** One pass of the descent loop: move, measure at the new altitude, write the record, `tiempo += 1`. */
  method FlySecond(recs0: seq<SimRecord>, altitude0: real, time0: nat, draw: nat -> StepDraws)
    returns (recs: seq<SimRecord>, altitude: real, time: nat)
    requires forall s :: ValidStep(draw(s))
    requires altitude0 > 0.0
    ensures altitude == Step(altitude0, draw(time0))
    ensures recs == recs0 + [FlightRecord(time0, altitude0, draw(time0))]
    ensures time == time0 + 1
    ensures recs + FlightFrom(altitude, time, draw) == recs0 + FlightFrom(altitude0, time0, draw)
    ensures altitude > 0.0 ==> altitude.Floor < altitude0.Floor
  {
    var d := draw(time0);
    var phase := PhaseOf(altitude0);
    var speed := Speed(phase);
    altitude := altitude0 - speed * 1.0;
    altitude := altitude + d.altNoise;
    altitude := Max(0.0, altitude);
    var pollution := ObtainPollution(altitude, d.pollution);
    recs := recs0 + [SimRecord(time0, altitude, TerrainAltitude + altitude, phase,
      Temperature(altitude) + d.tempNoise, Humidity(altitude, d.humNoise), pollution)];
    time := time0 + 1;
    FlightFromCons(recs0, altitude0, time0, draw);
  }

  /**
   * `simular_vuelo`: the descent loop; on the step that reaches the ground the
   * five ground records are written and the loop breaks. `draw(t)` holds the
   * random draws of the record with timestamp `t`.
   */
  method Simulate(draw: nat -> StepDraws) returns (recs: seq<SimRecord>)
    requires forall t :: ValidStep(draw(t))
    ensures recs == Run(draw)
  {
    recs := [];
    var altitude := LaunchAltitude;
    var time: nat := 0;
    while altitude > 0.0
      invariant altitude > 0.0 && time == |recs|
      invariant recs + FlightFrom(altitude, time, draw) == FlightFrom(LaunchAltitude, 0, draw)
      decreases altitude.Floor + 1
    {
      recs, altitude, time := FlySecond(recs, altitude, time, draw);
      if altitude <= 0.0 {
        FlightLanded(recs, altitude, time, draw);
        recs, time := AppendGround(recs, time, draw);
        break;
      }
    }
  }

  /**
   * The timestamps: the flight records count 0, 1, 2, …; the first ground
   * record comes two seconds after the last flight record, and each ground
   * record one second after the previous one.
   */
  lemma RunTimes(draw: nat -> StepDraws)
    requires forall s :: ValidStep(draw(s))
    ensures |Run(draw)| >= 6
    ensures forall k :: 0 <= k < |Run(draw)| - 5 ==> Run(draw)[k].timestamp == k
    ensures Run(draw)[|Run(draw)| - 5].timestamp == Run(draw)[|Run(draw)| - 6].timestamp + 2
    ensures forall k :: |Run(draw)| - 5 < k < |Run(draw)| ==> Run(draw)[k].timestamp == Run(draw)[k - 1].timestamp + 1
  {
    var flight := FlightFrom(LaunchAltitude, 0, draw);
    FlightTimes(LaunchAltitude, 0, draw);
    assert forall k :: 0 <= k < |flight| ==> Run(draw)[k] == flight[k];
  }

  /** The flight records lose altitude at every step and only the last is at 0 m; five ground records at 0 m follow. */
  lemma RunAltitudes(draw: nat -> StepDraws)
    requires forall s :: ValidStep(draw(s))
    ensures |Run(draw)| >= 6
    ensures forall k :: 0 <= k < |Run(draw)| - 6 ==> Run(draw)[k].alt > 0.0
    ensures Run(draw)[|Run(draw)| - 6].alt == 0.0
    ensures forall k :: 0 < k < |Run(draw)| - 5 ==> Run(draw)[k].alt < Run(draw)[k - 1].alt
    ensures forall k :: |Run(draw)| - 5 <= k < |Run(draw)| ==>
      Run(draw)[k].alt == 0.0 && Run(draw)[k].altSea == TerrainAltitude && Run(draw)[k].phase == Ground
  {
    var flight := FlightFrom(LaunchAltitude, 0, draw);
    FlightAltitudes(LaunchAltitude, 0, draw);
    assert forall k :: 0 <= k < |flight| ==> Run(draw)[k] == flight[k];
  }

  /** Phases never go back over the whole output: free fall, chute opening, descent, then ground. */
  lemma RunPhases(draw: nat -> StepDraws)
    requires forall s :: ValidStep(draw(s))
    ensures forall k :: 0 < k < |Run(draw)| ==> PhaseRank(Run(draw)[k - 1].phase) <= PhaseRank(Run(draw)[k].phase)
  {
    var flight := FlightFrom(LaunchAltitude, 0, draw);
    FlightPhases(LaunchAltitude, 0, draw);
    FlightTimes(LaunchAltitude, 0, draw);
    assert forall k :: 0 <= k < |flight| ==> Run(draw)[k] == flight[k];
    assert forall k :: |flight| <= k < |Run(draw)| ==> Run(draw)[k].phase == Ground;
  }
}
