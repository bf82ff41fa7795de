/**
 * The thermal-inversion flight simulator
 * (`software/simulacion/simulador_inversion_termica.py`): the physics helpers
 * and the descent loop that writes one record per second, then five ground records.
 */
module InversionSimulator {
  import opened Wrappers
  import opened PyMath
  import opened SimulatorCommon

  const GroundTemp: real := 12.0
  const NormalLapse: real := 6.5
  const GroundHumidity: real := 55.0
  const InversionBase: real := 200.0
  const InversionTop: real := 350.0
  /** Negative: inside the inversion the temperature rises with altitude. */
  const InversionLapse: real := -3.0
  const TerrainAltitude: real := 650.0
  const LaunchAltitude: real := 1000.0

  /** Below the inversion: the normal lapse rate from the ground temperature. */
  function BelowSegment(alt: real): real {
    GroundTemp - (alt / 1000.0) * NormalLapse
  }

  /** Inside the inversion: the inverted lapse rate from the temperature at its base. */
  function InversionSegment(alt: real): real {
    (GroundTemp - (InversionBase / 1000.0) * NormalLapse) - ((alt - InversionBase) / 1000.0) * InversionLapse
  }

  /** Above the inversion as written: the normal lapse rate restarted from `12 - 0.35 * 6.5`. */
  function AboveSegmentAsWritten(alt: real): real {
    (GroundTemp - (InversionTop / 1000.0) * NormalLapse) - ((alt - InversionTop) / 1000.0) * NormalLapse
  }

  /** `calcular_temperatura_real` as written. */
  function TemperatureAsWritten(alt: real): real {
    if alt >= InversionTop then AboveSegmentAsWritten(alt)
    else if alt >= InversionBase then InversionSegment(alt)
    else BelowSegment(alt)
  }

  /**
   * The as-written profile has the shape the comments describe: colder with
   * height below 200 m and from 350 m up, warmer with height in between.
   */
  lemma TemperatureAsWrittenShape(x: real, y: real)
    requires x < y
    ensures y < InversionBase ==> TemperatureAsWritten(x) > TemperatureAsWritten(y)
    ensures InversionBase <= x && y < InversionTop ==> TemperatureAsWritten(x) < TemperatureAsWritten(y)
    ensures InversionTop <= x ==> TemperatureAsWritten(x) > TemperatureAsWritten(y)
  {
  }

  /**
   * The segments meet at the base of the inversion but not at its top: the
   * profile drops by 1.425 °C at 350 m, so one metre below the top is more than
   * 1.4 °C warmer than the top.
   */
  lemma TemperatureJumpAtTop()
    ensures InversionSegment(InversionBase) == BelowSegment(InversionBase)
    ensures InversionSegment(InversionTop) - AboveSegmentAsWritten(InversionTop) == 1.425
    ensures TemperatureAsWritten(349.0) - TemperatureAsWritten(350.0) > 1.4
  {
  }

  /** Above the inversion, corrected: the normal lapse rate from the temperature at the inversion's top. */
  function AboveSegment(alt: real): real {
    InversionSegment(InversionTop) - ((alt - InversionTop) / 1000.0) * NormalLapse
  }

  /** The continuous temperature profile the simulator is meant to produce. */
  function Temperature(alt: real): (t: real)
    ensures alt < InversionBase ==> t == TemperatureAsWritten(alt)
    ensures InversionBase <= alt < InversionTop ==> t == TemperatureAsWritten(alt)
  {
    if alt >= InversionTop then AboveSegment(alt)
    else if alt >= InversionBase then InversionSegment(alt)
    else BelowSegment(alt)
  }

  /**
   * The corrected profile is continuous: two altitudes `d` metres apart differ
   * by at most 6.5 °C per km times `d`, the steepest lapse rate of the profile.
   */
  lemma TemperatureContinuous(x: real, y: real)
    requires x <= y
    ensures Abs(Temperature(x) - Temperature(y)) <= (y - x) * 0.0065
  {
    assert InversionSegment(InversionTop) == AboveSegment(InversionTop);
    assert InversionSegment(InversionBase) == BelowSegment(InversionBase);
  }

  /** The corrected profile keeps the shape: colder with height outside the inversion, warmer inside it. */
  lemma TemperatureShape(x: real, y: real)
    requires x < y
    ensures y <= InversionBase ==> Temperature(x) > Temperature(y)
    ensures InversionBase <= x && y <= InversionTop ==> Temperature(x) < Temperature(y)
    ensures InversionTop <= x ==> Temperature(x) > Temperature(y)
  {
    assert InversionSegment(InversionTop) == AboveSegment(InversionTop);
  }

  /** `calcular_humedad`: 55 % plus 8 % per km, plus a draw in [-3, 3], clipped to [25, 90]. */
  function Humidity(alt: real, noise: real): (h: real)
    ensures 25.0 <= h <= 90.0
    ensures 25.0 <= GroundHumidity + (alt / 1000.0) * 8.0 + noise <= 90.0 ==>
      h == GroundHumidity + (alt / 1000.0) * 8.0 + noise
  {
    Clip(GroundHumidity + (alt / 1000.0) * 8.0 + noise, 25.0, 90.0)
  }

  /** `PERFIL_CONTAMINACION`, top to bottom. */
  const Profile: seq<Zone> := [
    Zone(700.0, 1000.0, 420.0, 5.0),
    Zone(500.0, 700.0, 420.0, 8.0),
    Zone(350.0, 500.0, 420.0, 12.0),
    Zone(200.0, 350.0, 420.0, 48.0),
    Zone(100.0, 200.0, 420.0, 30.0),
    Zone(0.0, 100.0, 420.0, 22.0)
  ]

  /** The zones tile `[0, 1000)`: an altitude outside every zone is negative or at least 1000 m. */
  lemma ProfileCovers(alt: real)
    ensures ZoneOf(Profile, alt).None? <==> alt < 0.0 || alt >= 1000.0
  {
    ZoneOfSound(Profile, alt);
    if 0.0 <= alt < 1000.0 {
      var i := if alt >= 700.0 then 0 else if alt >= 500.0 then 1 else if alt >= 350.0 then 2
        else if alt >= 200.0 then 3 else if alt >= 100.0 then 4 else 5;
      assert InZone(Profile[i], alt);
    }
  }

  /** The draws of one pollution reading. */
  datatype PollutionDraws = PollutionDraws(co2Noise: real, pmNoise: real, pm1Ratio: real, pm10Ratio: real)

  predicate ValidPollutionDraws(d: PollutionDraws) {
    -10.0 <= d.co2Noise <= 15.0 && -5.0 <= d.pmNoise <= 8.0
    && 0.55 <= d.pm1Ratio <= 0.70 && 1.25 <= d.pm10Ratio <= 1.60
  }

  /** `(co2, pm1_0, pm2_5, pm10)`; the particle values before `round(_, 1)`. */
  datatype Pollution = Pollution(co2: int, pm1: real, pm25: real, pm10: real)

  const DefaultPollution := Pollution(420, 4.0, 6.0, 10.0)

  /** The readings of `obtener_contaminacion` once the zone is known; the default outside every zone. */
  function ZoneReadings(zone: Option<Zone>, d: PollutionDraws): (p: Pollution)
    ensures 400 <= p.co2 <= 600 && p.pm25 >= 0.0 && p.pm1 >= 0.0 && p.pm10 >= 0.0
    ensures zone.None? ==> p == DefaultPollution
    ensures zone.Some? && ValidPollutionDraws(d) ==>
      p.pm1 <= 0.70 * p.pm25 && p.pm10 <= 1.60 * p.pm25
      && zone.value.pm25Base - 5.0 <= p.pm25 <= Max(0.0, zone.value.pm25Base + 8.0)
  {
    match zone
    case None => DefaultPollution
    case Some(z) =>
      var co2 := Trunc(Clip(z.co2Base + d.co2Noise, 400.0, 600.0));
      var pm25 := Max(0.0, z.pm25Base + d.pmNoise);
      var pm1 := Max(0.0, pm25 * d.pm1Ratio);
      var pm10 := Max(0.0, pm25 * d.pm10Ratio);
      ShareBound(pm25, d.pm1Ratio, 0.70);
      ShareBound(pm25, d.pm10Ratio, 1.60);
      Pollution(co2, pm1, pm25, pm10)
  }

  /** A share `pm25 * r` of a non-negative reading, floored at 0, stays below `hi * pm25` when `r <= hi`. */
  lemma ShareBound(pm25: real, r: real, hi: real)
    requires pm25 >= 0.0 && hi >= 0.0
    ensures r <= hi ==> Max(0.0, pm25 * r) <= hi * pm25
  {
    if r <= hi {
      ScaleLe(pm25, r, hi);
      ScaleLe(pm25, 0.0, hi);
    }
  }

  /** `obtener_contaminacion`: the readings of the first zone holding `alt`. */
  function PollutionOf(alt: real, d: PollutionDraws): Pollution {
    ZoneReadings(ZoneOf(Profile, alt), d)
  }

  /**
   * The default reading is not one a zone could give: its PM10 is more than
   * 1.6 times its PM2.5.
   */
  lemma DefaultBreaksRatio()
    ensures DefaultPollution.pm10 > 1.60 * DefaultPollution.pm25
  {
  }

  /** Particles pile up in the inversion: any reading inside it has more PM2.5 than any reading outside it. */
  lemma InversionTrapsParticles(inside: real, outside: real, d1: PollutionDraws, d2: PollutionDraws)
    requires InversionBase <= inside < InversionTop
    requires !(InversionBase <= outside < InversionTop)
    requires ValidPollutionDraws(d1) && ValidPollutionDraws(d2)
    ensures PollutionOf(inside, d1).pm25 > PollutionOf(outside, d2).pm25
  {
    ZoneOfFirst(Profile, inside, 3);
    var z := ZoneOf(Profile, outside);
    ZoneOfSound(Profile, outside);
    if z.Some? {
      assert z.value in Profile;
      assert z.value != Profile[3];
    }
  }

  /** `obtener_contaminacion` as a method: the zone search loop, then the readings of the zone found. */
  method ObtainPollution(alt: real, d: PollutionDraws) returns (p: Pollution)
    ensures p == PollutionOf(alt, d)
  {
    var zone := FindZone(Profile, alt);
    p := ZoneReadings(zone, d);
  }

  /**
   * `simular_sensores_temperatura`, before rounding: HS300x, SCD40 with a
   * +0.1 °C drift and LPS22HB with a +0.4 °C bias, each with its own noise.
   */
  function TemperatureSensors(t: real, nHs: real, nScd: real, nLps: real): (r: (real, real, real))
    ensures -0.3 <= nHs <= 0.3 ==> t - 0.3 <= r.0 <= t + 0.3
    ensures -0.4 <= nScd <= 0.4 ==> t + 0.1 - 0.4 <= r.1 <= t + 0.1 + 0.4
    ensures -0.3 <= nLps <= 0.3 ==> t + 0.4 - 0.3 <= r.2 <= t + 0.4 + 0.3
  {
    (t + nHs, t + 0.1 + nScd, t + 0.4 + nLps)
  }

  /** Cross-check of the three sensors: the LPS22HB reads between 0.2 °C below and 1.0 °C above the HS300x. */
  lemma SensorSpread(t: real, nHs: real, nScd: real, nLps: real)
    requires -0.3 <= nHs <= 0.3 && -0.4 <= nScd <= 0.4 && -0.3 <= nLps <= 0.3
    ensures var r := TemperatureSensors(t, nHs, nScd, nLps);
      -0.2 <= r.2 - r.0 <= 1.0 && Abs(r.1 - r.0) <= 0.8
  {
  }

  /** `simular_sensores_humedad`, before rounding: both readings are clipped to [10, 95]. */
  function HumiditySensors(h: real, nHs: real, nScd: real): (r: (real, real))
    ensures 10.0 <= r.0 <= 95.0 && 10.0 <= r.1 <= 95.0
    ensures 10.0 <= h + nHs <= 95.0 ==> r.0 == h + nHs
    ensures 10.0 <= h - 1.0 + nScd <= 95.0 ==> r.1 == h - 1.0 + nScd
  {
    (Clip(h + nHs, 10.0, 95.0), Clip(h - 1.0 + nScd, 10.0, 95.0))
  }

  /** The draws one record uses. */
  datatype StepDraws = StepDraws(altNoise: real, humNoise: real, pollution: PollutionDraws)

  predicate ValidStep(d: StepDraws) {
    -0.4 <= d.altNoise <= 0.4 && -3.0 <= d.humNoise <= 3.0 && ValidPollutionDraws(d.pollution)
  }

  /** One second of flight: `altitud -= vel + uniform(-0.4, 0.4)`, then `max(0.0, altitud)`. */
  function Step(alt: real, d: StepDraws): (next: real)
    ensures next >= 0.0
    ensures alt > 0.0 && ValidStep(d) ==> next < alt && (next == 0.0 || next <= alt - 8.6)
  {
    Max(0.0, alt - (Speed(PhaseOf(alt)) * 1.0 + d.altNoise))
  }

  /** One CSV record, reduced to the values the model follows (`lat`, `lon`, pressure, IMU and sensor noise are left out). */
  datatype SimRecord = SimRecord(timestamp: int, alt: real, altSea: real, phase: Phase,
                                 temp: real, hum: real, pollution: Pollution)

  /**
   * The record written at second `t` of a flight step taken from altitude `prev`.
   * Its temperature is `calcular_temperatura_real` as written: the continuous
   * profile below the top of the inversion, 1.425 °C colder from there up.
   */
  function FlightRecord(t: int, prev: real, d: StepDraws): (r: SimRecord)
    ensures r.phase == PhaseOf(prev) && r.alt == Step(prev, d) && r.altSea == TerrainAltitude + r.alt
    ensures r.alt < InversionTop ==> r.temp == Temperature(r.alt)
    ensures r.alt >= InversionTop ==> r.temp == Temperature(r.alt) - 1.425
  {
    var alt := Step(prev, d);
    SimRecord(t, alt, TerrainAltitude + alt, PhaseOf(prev), TemperatureAsWritten(alt), Humidity(alt, d.humNoise),
      PollutionOf(alt, d.pollution))
  }

  /** One of the five records written after landing. */
  function GroundRecord(t: int, d: StepDraws): SimRecord {
    SimRecord(t, 0.0, TerrainAltitude, Ground, GroundTemp, GroundHumidity, PollutionOf(0.0, d.pollution))
  }

  /**
   * Reference run of the descent loop from altitude `alt` at second `t`: one
   * record per step while the altitude is positive.
   */
  function FlightFrom(alt: real, t: nat, draw: nat -> StepDraws): seq<SimRecord>
    requires forall s :: ValidStep(draw(s))
    decreases if alt > 0.0 then alt.Floor + 1 else 0
  {
    if alt <= 0.0 then [] else [FlightRecord(t, alt, draw(t))] + FlightFrom(Step(alt, draw(t)), t + 1, draw)
  }

  /** `n` ground records, from second `t` on; the run ends with five of them. */
  function GroundTail(t: nat, n: nat, draw: nat -> StepDraws): (tail: seq<SimRecord>)
    ensures |tail| == n
    ensures forall j :: 0 <= j < n ==> tail[j] == GroundRecord(t + j, draw(t + j))
  {
    if n == 0 then [] else GroundTail(t, n - 1, draw) + [GroundRecord(t + n - 1, draw(t + n - 1))]
  }

  /** The whole output of `simular_vuelo`: the descent from the launch altitude, then the ground records. */
  function Run(draw: nat -> StepDraws): seq<SimRecord>
    requires forall s :: ValidStep(draw(s))
  {
    var flight := FlightFrom(LaunchAltitude, 0, draw);
    flight + GroundTail(|flight|, 5, draw)
  }

  /** Timestamps of a descent count up by one from its first second; no flight record is on the ground. */
  lemma {:induction false} FlightTimes(alt: real, t: nat, draw: nat -> StepDraws)
    requires forall s :: ValidStep(draw(s))
    ensures var recs := FlightFrom(alt, t, draw);
      (|recs| > 0 <==> alt > 0.0)
      && forall k :: 0 <= k < |recs| ==> recs[k].timestamp == t + k && recs[k].phase != Ground
    decreases if alt > 0.0 then alt.Floor + 1 else 0
  {
    if alt > 0.0 {
      FlightTimes(Step(alt, draw(t)), t + 1, draw);
    }
  }

  /**
   * A descent from a positive altitude ends on the ground: every record is
   * lower than the one before and the last one, only, is at 0 m.
   */
  lemma {:induction false} FlightAltitudes(alt: real, t: nat, draw: nat -> StepDraws)
    requires forall s :: ValidStep(draw(s))
    requires alt > 0.0
    ensures |FlightFrom(alt, t, draw)| > 0
    ensures FlightFrom(alt, t, draw)[0].alt < alt
    ensures FlightFrom(alt, t, draw)[|FlightFrom(alt, t, draw)| - 1].alt == 0.0
    ensures forall k :: 0 <= k < |FlightFrom(alt, t, draw)| - 1 ==> FlightFrom(alt, t, draw)[k].alt > 0.0
    ensures forall k :: 0 < k < |FlightFrom(alt, t, draw)| ==>
      FlightFrom(alt, t, draw)[k].alt < FlightFrom(alt, t, draw)[k - 1].alt
    decreases alt.Floor + 1
  {
    var next := Step(alt, draw(t));
    var recs := FlightFrom(alt, t, draw);
    var rest := FlightFrom(next, t + 1, draw);
    assert recs == [FlightRecord(t, alt, draw(t))] + rest;
    assert recs[0].alt == next;
    if next > 0.0 {
      FlightAltitudes(next, t + 1, draw);
      assert forall k :: 0 < k < |recs| ==> recs[k].alt == rest[k - 1].alt;
    }
  }

  /** Along a descent the phases never go back, starting from the phase of the starting altitude. */
  lemma {:induction false} FlightPhases(alt: real, t: nat, draw: nat -> StepDraws)
    requires forall s :: ValidStep(draw(s))
    ensures forall k :: 0 <= k < |FlightFrom(alt, t, draw)| ==>
      PhaseRank(PhaseOf(alt)) <= PhaseRank(FlightFrom(alt, t, draw)[k].phase)
    ensures forall k :: 0 < k < |FlightFrom(alt, t, draw)| ==>
      PhaseRank(FlightFrom(alt, t, draw)[k - 1].phase) <= PhaseRank(FlightFrom(alt, t, draw)[k].phase)
    decreases if alt > 0.0 then alt.Floor + 1 else 0
  {
    if alt > 0.0 {
      var next := Step(alt, draw(t));
      var recs := FlightFrom(alt, t, draw);
      var rest := FlightFrom(next, t + 1, draw);
      assert recs == [FlightRecord(t, alt, draw(t))] + rest;
      FlightPhases(next, t + 1, draw);
      PhaseMonotone(next, alt);
      assert recs[0].phase == PhaseOf(alt);
      assert forall k :: 0 < k < |recs| ==> recs[k].phase == rest[k - 1].phase;
    }
  }

  /** One step of the reference run: the record of this second, then the run from the next altitude, which is lower by at least one whole metre. */
  lemma FlightFromCons(recs: seq<SimRecord>, alt: real, t: nat, draw: nat -> StepDraws)
    requires forall s :: ValidStep(draw(s))
    requires alt > 0.0
    ensures recs + FlightFrom(alt, t, draw)
         == (recs + [FlightRecord(t, alt, draw(t))]) + FlightFrom(Step(alt, draw(t)), t + 1, draw)
    ensures Step(alt, draw(t)) > 0.0 ==> Step(alt, draw(t)).Floor < alt.Floor
  {
    assert FlightFrom(alt, t, draw) == [FlightRecord(t, alt, draw(t))] + FlightFrom(Step(alt, draw(t)), t + 1, draw);
  }

  /** One pass of the descent loop: move, measure at the new altitude, write the record, `tiempo += 1`. */
  method FlySecond(recs0: seq<SimRecord>, altitude0: real, time0: nat, draw: nat -> StepDraws)
    returns (recs: seq<SimRecord>, altitude: real, time: nat)
    requires forall s :: ValidStep(draw(s))
    requires altitude0 > 0.0
    ensures altitude == Step(altitude0, draw(time0))
    ensures recs == recs0 + [FlightRecord(time0, altitude0, draw(time0))]
    ensures time == time0 + 1
    ensures recs + FlightFrom(altitude, time, draw) == recs0 + FlightFrom(altitude0, time0, draw)
    ensures altitude > 0.0 ==> altitude.Floor < altitude0.Floor
  {
    var d := draw(time0);
    var phase := PhaseOf(altitude0);
    var speed := Speed(phase);
    altitude := altitude0 - (speed * 1.0 + d.altNoise);
    altitude := Max(0.0, altitude);
    var pollution := ObtainPollution(altitude, d.pollution);
    recs := recs0 + [SimRecord(time0, altitude, TerrainAltitude + altitude, phase,
      TemperatureAsWritten(altitude), Humidity(altitude, d.humNoise), pollution)];
    time := time0 + 1;
    FlightFromCons(recs0, altitude0, time0, draw);
  }

  /** The `while altitud > 0` loop of `simular_vuelo`: one record per second until the ground. */
  method Descend(draw: nat -> StepDraws) returns (recs: seq<SimRecord>)
    requires forall t :: ValidStep(draw(t))
    ensures recs == FlightFrom(LaunchAltitude, 0, draw)
  {
    recs := [];
    var altitude := LaunchAltitude;
    var time: nat := 0;
    while altitude > 0.0
      invariant altitude >= 0.0 && time == |recs|
      invariant recs + FlightFrom(altitude, time, draw) == FlightFrom(LaunchAltitude, 0, draw)
      decreases if altitude > 0.0 then altitude.Floor + 1 else 0
    {
      recs, altitude, time := FlySecond(recs, altitude, time, draw);
    }
    assert recs + [] == recs;
  }

  /** The `for i in range(5)` loop: five ground records after the flight records. */
  method AppendGround(flight: seq<SimRecord>, draw: nat -> StepDraws) returns (recs: seq<SimRecord>)
    ensures recs == flight + GroundTail(|flight|, 5, draw)
  {
    recs := flight;
    var time: nat := |flight|;
    for j := 0 to 5
      invariant time == |recs| == |flight| + j
      invariant recs == flight + GroundTail(|flight|, j, draw)
    {
      var pollution := ObtainPollution(0.0, draw(time).pollution);
      recs := recs + [SimRecord(time, 0.0, TerrainAltitude, Ground, GroundTemp, GroundHumidity, pollution)];
      time := time + 1;
    }
  }

  /**
   * `simular_vuelo`: the descent loop, then the five ground records. `draw(t)`
   * holds the random draws of the record with timestamp `t`.
   */
  method Simulate(draw: nat -> StepDraws) returns (recs: seq<SimRecord>)
    requires forall t :: ValidStep(draw(t))
    ensures recs == Run(draw)
  {
    var flight := Descend(draw);
    recs := AppendGround(flight, draw);
  }

  /** A run holds at least one flight record, then exactly five ground records at 0 m, 650 m above sea level. */
  lemma RunGround(draw: nat -> StepDraws)
    requires forall s :: ValidStep(draw(s))
    ensures |Run(draw)| >= 6
    ensures forall k :: 0 <= k < |Run(draw)| - 5 ==> Run(draw)[k].phase != Ground
    ensures forall k :: |Run(draw)| - 5 <= k < |Run(draw)| ==>
      Run(draw)[k].phase == Ground && Run(draw)[k].alt == 0.0 && Run(draw)[k].altSea == TerrainAltitude
  {
    var flight := FlightFrom(LaunchAltitude, 0, draw);
    FlightTimes(LaunchAltitude, 0, draw);
    assert forall k :: 0 <= k < |flight| ==> Run(draw)[k] == flight[k];
  }

  /** Timestamps rise by exactly one from 0 across the whole output, ground records included. */
  lemma RunTimes(draw: nat -> StepDraws)
    requires forall s :: ValidStep(draw(s))
    ensures forall k :: 0 <= k < |Run(draw)| ==> Run(draw)[k].timestamp == k
  {
    var flight := FlightFrom(LaunchAltitude, 0, draw);
    FlightTimes(LaunchAltitude, 0, draw);
    assert forall k :: 0 <= k < |flight| ==> Run(draw)[k] == flight[k];
  }

  /** The flight records lose altitude at every step; the last one, only, is at 0 m. */
  lemma RunAltitudes(draw: nat -> StepDraws)
    requires forall s :: ValidStep(draw(s))
    ensures |Run(draw)| >= 6
    ensures forall k :: 0 <= k < |Run(draw)| - 6 ==> Run(draw)[k].alt > 0.0
    ensures Run(draw)[|Run(draw)| - 6].alt == 0.0
    ensures forall k :: 0 < k < |Run(draw)| - 5 ==> Run(draw)[k].alt < Run(draw)[k - 1].alt
  {
    var flight := FlightFrom(LaunchAltitude, 0, draw);
    FlightAltitudes(LaunchAltitude, 0, draw);
    assert forall k :: 0 <= k < |flight| ==> Run(draw)[k] == flight[k];
  }

  /** Phases never go back over the whole output: free fall, chute opening, descent, then ground. */
  lemma RunPhases(draw: nat -> StepDraws)
    requires forall s :: ValidStep(draw(s))
    ensures forall k :: 0 < k < |Run(draw)| ==> PhaseRank(Run(draw)[k - 1].phase) <= PhaseRank(Run(draw)[k].phase)
  {
    var flight := FlightFrom(LaunchAltitude, 0, draw);
    FlightPhases(LaunchAltitude, 0, draw);
    FlightTimes(LaunchAltitude, 0, draw);
    assert forall k :: 0 <= k < |flight| ==> Run(draw)[k] == flight[k];
    assert forall k :: |flight| <= k < |Run(draw)| ==> Run(draw)[k].phase == Ground;
  }
}
