/**
 * The vertical-profile analysis of `software/post-vuelo/python/analizar_vuelo_v4.py`:
 * loading and cleaning the flight log, binning the samples by altitude,
 * flagging thermal inversions and PM2.5 accumulation layers, the map colour of
 * a PM2.5 reading and the "well mixed" CO2 test of the report.
 */
module ProfileAnalysis {
  import opened Wrappers
  import opened PyMath
  import opened Text

  /** `UMBRAL_INVERSION_TEMP`: a rise of more than 0.5 °C from one bin to the next is an inversion. */
  const InversionThreshold: real := 0.5
  /** `UMBRAL_PM25_CAPA`: a bin whose mean PM2.5 is above 15 µg/m³ is an accumulation layer. */
  const Pm25LayerThreshold: real := 15.0
  /** `UMBRAL_CO2_VARIACION`: a CO2 range below 20 ppm means a well-mixed atmosphere. */
  const Co2Variation: real := 20.0
  /** The lowest altitude `cargar_datos` keeps (exclusive). */
  const AltitudeFloor: real := -50.0

  /** One row of the flight log, reduced to the columns the analysis uses; `co2` is `None` where the frame holds NaN. */
  datatype Sample = Sample(timestamp: real, lat: real, lon: real, alt: real, temp: real,
                           pm25: real, pm10: real, co2: Option<real>)

  // ---------------------------------------------------------------------------
  // cargar_datos

  /** `df.columns.str.strip().str.lower()`. */
  function NormaliseColumns(cols: seq<string>): (r: seq<string>)
    ensures |r| == |cols|
    ensures forall i :: 0 <= i < |r| ==> Trimmed(r[i])
  {
    seq(|cols|, i requires 0 <= i < |cols| => NormalisedName(cols[i]))
  }

  function NormalisedName(c: string): (r: string)
    ensures Trimmed(r)
  {
    Lower(Strip(c))
  }

  /** Normalising a column name a second time changes nothing. */
  lemma NormalisedNameIdempotent(c: string)
    ensures NormalisedName(NormalisedName(c)) == NormalisedName(c)
  {
    var t := Strip(c);
    var r := Lower(t);
    LowerIdempotent(t);
    StripTrimmed(r);
  }

  /** Normalising the column names a second time changes nothing. */
  lemma NormaliseColumnsIdempotent(cols: seq<string>)
    ensures NormaliseColumns(NormaliseColumns(cols)) == NormaliseColumns(cols)
  {
    var once := NormaliseColumns(cols);
    forall i | 0 <= i < |cols|
      ensures NormaliseColumns(once)[i] == once[i]
    {
      NormalisedNameIdempotent(cols[i]);
    }
  }

  /** `df['co2'].replace(0, np.nan)`: a zero reading means the sensor was not ready. */
  function MarkMissingCo2(rows: seq<Sample>): (r: seq<Sample>)
    ensures |r| == |rows|
    ensures forall i :: 0 <= i < |r| ==>
      r[i].co2 != Some(0.0) && (rows[i].co2 != Some(0.0) ==> r[i] == rows[i])
      && r[i] == rows[i].(co2 := r[i].co2)
  {
    seq(|rows|, i requires 0 <= i < |rows| =>
      if rows[i].co2 == Some(0.0) then rows[i].(co2 := None) else rows[i])
  }

  /** `df[df['alt'] > -50]`: the rows above the calibration floor, in order. */
  function AboveFloor(rows: seq<Sample>): (r: seq<Sample>)
    ensures |r| <= |rows|
    ensures forall s :: s in r <==> s in rows && s.alt > AltitudeFloor
  {
    if rows == [] then []
    else (if rows[0].alt > AltitudeFloor then [rows[0]] else []) + AboveFloor(rows[1..])
  }

  /** A row above the floor is kept as often as it occurs, so no bin loses or gains a sample; no other row is kept. */
  lemma {:induction false} AboveFloorCounts(rows: seq<Sample>, s: Sample)
    ensures multiset(AboveFloor(rows))[s] == if s.alt > AltitudeFloor then multiset(rows)[s] else 0
  {
    if rows != [] {
      assert rows == [rows[0]] + rows[1..];
      AboveFloorCounts(rows[1..], s);
    }
  }

  predicate SortedByTime(rows: seq<Sample>) {
    forall i, j :: 0 <= i < j < |rows| ==> rows[i].timestamp <= rows[j].timestamp
  }

  /** `r` placed before the first row of `rows` with a later or equal timestamp. */
  function Insert(r: Sample, rows: seq<Sample>): (res: seq<Sample>)
    ensures multiset(res) == multiset(rows) + multiset{r}
    ensures |res| == |rows| + 1
  {
    if rows == [] then [r]
    else if r.timestamp <= rows[0].timestamp then [r] + rows
    else
      assert rows == [rows[0]] + rows[1..];
      [rows[0]] + Insert(r, rows[1..])
  }

  /** `sort_values('timestamp')`, as an insertion sort. */
  function SortByTime(rows: seq<Sample>): (res: seq<Sample>)
    ensures multiset(res) == multiset(rows)
  {
    if rows == [] then []
    else
      assert rows == [rows[0]] + rows[1..];
      Insert(rows[0], SortByTime(rows[1..]))
  }

  lemma {:induction false} InsertSorted(r: Sample, rows: seq<Sample>)
    requires SortedByTime(rows)
    ensures SortedByTime(Insert(r, rows))
  {
    if rows != [] && r.timestamp > rows[0].timestamp {
      InsertSorted(r, rows[1..]);
      var tail := Insert(r, rows[1..]);
      forall k | 0 <= k < |tail|
        ensures rows[0].timestamp <= tail[k].timestamp
      {
        assert tail[k] in multiset(rows[1..]) + multiset{r};
      }
    }
  }

  /** The sort orders the rows by timestamp and keeps every row. */
  lemma {:induction false} SortByTimeSorted(rows: seq<Sample>)
    ensures SortedByTime(SortByTime(rows))
    ensures multiset(SortByTime(rows)) == multiset(rows)
  {
    if rows != [] {
      SortByTimeSorted(rows[1..]);
      InsertSorted(rows[0], SortByTime(rows[1..]));
    }
  }

  /** The frame `cargar_datos` returns: zero CO2 marked missing, rows below the floor dropped, sorted by time. */
  function Prepare(raw: seq<Sample>): seq<Sample> {
    SortByTime(AboveFloor(MarkMissingCo2(raw)))
  }

  /**
   * The cleaned frame holds exactly the rows above the floor, each once per
   * occurrence, in timestamp order, and none with a zero CO2 reading.
   */
  lemma PrepareSpec(raw: seq<Sample>)
    ensures SortedByTime(Prepare(raw))
    ensures multiset(Prepare(raw)) == multiset(AboveFloor(MarkMissingCo2(raw)))
    ensures forall s :: s in Prepare(raw) <==> s in MarkMissingCo2(raw) && s.alt > AltitudeFloor
    ensures forall i :: 0 <= i < |Prepare(raw)| ==> Prepare(raw)[i].alt > AltitudeFloor && Prepare(raw)[i].co2 != Some(0.0)
  {
    var kept := AboveFloor(MarkMissingCo2(raw));
    SortByTimeSorted(kept);
    forall s
      ensures s in Prepare(raw) <==> s in kept
    {
      assert s in Prepare(raw) <==> s in multiset(Prepare(raw));
      assert s in kept <==> s in multiset(kept);
    }
  }

  /** A GPS fix: the receiver writes 0 for both coordinates until it has one. */
  predicate HasFix(s: Sample) {
    s.lat != 0.0 && s.lon != 0.0
  }

  /** `(df['lat'] != 0) & (df['lon'] != 0)`, one flag per row of `rows`. */
  function FixMask(rows: seq<Sample>): (m: seq<bool>)
    ensures |m| == |rows| && forall i :: 0 <= i < |rows| ==> m[i] == HasFix(rows[i])
  {
    seq(|rows|, i requires 0 <= i < |rows| => HasFix(rows[i]))
  }

  /**
   * `df[tiene_gps]` as written: the mask was computed on the raw frame, and
   * pandas aligns a boolean Series by index label, so after `reset_index` the
   * row now at position `j` is kept when the raw row `j` had a fix.
   */
  function GpsByLabel(mask: seq<bool>, df: seq<Sample>): (gps: seq<Sample>)
    requires |df| <= |mask|
    ensures |gps| <= |df|
  {
    if df == [] then []
    else (if mask[0] then [df[0]] else []) + GpsByLabel(mask[1..], df[1..])
  }

  /** The rows with a fix, in order: what the GPS subset is meant to be. */
  function WithFix(rows: seq<Sample>): (gps: seq<Sample>)
    ensures |gps| <= |rows|
    ensures forall s :: s in gps <==> s in rows && HasFix(s)
  {
    if rows == [] then []
    else (if HasFix(rows[0]) then [rows[0]] else []) + WithFix(rows[1..])
  }

  /** Two raw rows logged out of order: the second is earlier and has no fix. */
  const LateFix := Sample(2.0, 40.4, -3.7, 120.0, 11.0, 8.0, 12.0, Some(420.0))
  const EarlyNoFix := Sample(1.0, 0.0, 0.0, 100.0, 11.5, 9.0, 13.0, Some(425.0))

  /** Sorting the two rows swaps them. */
  lemma SortExample()
    ensures SortByTime([LateFix, EarlyNoFix]) == [EarlyNoFix, LateFix]
  {
    assert SortByTime([EarlyNoFix]) == Insert(EarlyNoFix, SortByTime([])) == [EarlyNoFix];
    assert Insert(LateFix, [EarlyNoFix]) == [EarlyNoFix] + Insert(LateFix, []);
  }

  /** Cleaning the two rows keeps both and sorts them by time. */
  lemma PrepareExample()
    ensures Prepare([LateFix, EarlyNoFix]) == [EarlyNoFix, LateFix]
  {
    var raw := [LateFix, EarlyNoFix];
    assert MarkMissingCo2(raw) == raw;
    assert AboveFloor([EarlyNoFix]) == [EarlyNoFix] + AboveFloor([]);
    assert AboveFloor(raw) == [LateFix] + AboveFloor([EarlyNoFix]);
    SortExample();
  }

  /**
   * With the mask as written the GPS subset holds the row without a fix and
   * misses the one with it; the intended subset is exactly the row with the fix.
   */
  lemma GpsMaskCounterexample()
    ensures GpsByLabel(FixMask([LateFix, EarlyNoFix]), Prepare([LateFix, EarlyNoFix])) == [EarlyNoFix]
    ensures !HasFix(EarlyNoFix)
    ensures WithFix(Prepare([LateFix, EarlyNoFix])) == [LateFix]
  {
    PrepareExample();
    var df := [EarlyNoFix, LateFix];
    assert FixMask([LateFix, EarlyNoFix]) == [true, false];
    assert GpsByLabel([true, false], df) == [EarlyNoFix] + GpsByLabel([false], [LateFix]);
    assert WithFix(df) == [] + WithFix([LateFix]);
  }

  /** `cargar_datos`, with the GPS subset taken from the cleaned frame: every row of it has a fix and comes from the frame. */
  function LoadData(raw: seq<Sample>): (r: (seq<Sample>, seq<Sample>))
    ensures r.0 == Prepare(raw)
    ensures forall s :: s in r.1 <==> s in r.0 && HasFix(s)
  {
    var df := Prepare(raw);
    (df, WithFix(df))
  }

  // ---------------------------------------------------------------------------
  // detectar_inversiones

  /** `bin_size`: the script calls `detectar_inversiones` with its default width of 50 m. */
  const BinSize: real := 50.0

  /** `alt // bin_size`. */
  function BinIndex(alt: real): int {
    (alt / BinSize).Floor
  }

  /** `(alt // bin_size) * bin_size`: the lower edge of the sample's bin. */
  function BinFloor(alt: real): real {
    BinIndex(alt) as real * BinSize
  }

  /** Every sample lies in its bin, and a lower bin index is a lower bin. */
  lemma BinBounds(alt: real, k: int)
    ensures BinFloor(alt) <= alt < BinFloor(alt) + BinSize
    ensures k < BinIndex(alt) ==> k as real * BinSize + BinSize <= BinFloor(alt)
    ensures BinIndex(alt) < k ==> BinFloor(alt) + BinSize <= k as real * BinSize
  {
  }

  /** The samples in bin `k`, in order. */
  function Members(samples: seq<Sample>, k: int): (ms: seq<Sample>)
    ensures |ms| <= |samples|
  {
    if samples == [] then []
    else (if BinIndex(samples[0].alt) == k then [samples[0]] else []) + Members(samples[1..], k)
  }

  /** The members of bin `k` are exactly the samples whose bin index is `k`. */
  lemma {:induction false} MembersSpec(samples: seq<Sample>, k: int)
    ensures forall s :: s in Members(samples, k) <==> s in samples && BinIndex(s.alt) == k
  {
    if samples != [] {
      MembersSpec(samples[1..], k);
      assert samples == [samples[0]] + samples[1..];
    }
  }

  /** `n_muestras` of bin `k`: how many samples have that bin key. */
  function Count(samples: seq<Sample>, k: int): nat {
    |Members(samples, k)|
  }

  /** The lowest bin index in use. */
  function IndexMin(samples: seq<Sample>): (m: int)
    requires |samples| > 0
    ensures forall s :: s in samples ==> m <= BinIndex(s.alt)
  {
    if |samples| == 1 then BinIndex(samples[0].alt)
    else
      var rest := IndexMin(samples[1..]);
      assert forall s :: s in samples ==> s == samples[0] || s in samples[1..];
      if BinIndex(samples[0].alt) <= rest then BinIndex(samples[0].alt) else rest
  }

  /** The highest bin index in use. */
  function IndexMax(samples: seq<Sample>): (m: int)
    requires |samples| > 0
    ensures forall s :: s in samples ==> BinIndex(s.alt) <= m
  {
    if |samples| == 1 then BinIndex(samples[0].alt)
    else
      var rest := IndexMax(samples[1..]);
      assert forall s :: s in samples ==> s == samples[0] || s in samples[1..];
      if BinIndex(samples[0].alt) >= rest then BinIndex(samples[0].alt) else rest
  }

  /** The bin indices from `k` to `hi` holding at least two samples, ascending, and all of them. */
  function KeysFrom(samples: seq<Sample>, k: int, hi: int): (ks: seq<int>)
    ensures forall i :: 0 <= i < |ks| ==> k <= ks[i] <= hi && Count(samples, ks[i]) >= 2
    ensures forall i, j :: 0 <= i < j < |ks| ==> ks[i] < ks[j]
    ensures forall j :: k <= j <= hi && Count(samples, j) >= 2 ==> j in ks
    decreases hi - k + 1
  {
    if k > hi then []
    else (if Count(samples, k) >= 2 then [k] else []) + KeysFrom(samples, k + 1, hi)
  }

  /**
   * The surviving bin indices (`groupby('alt_bin')`, then `n_muestras >= 2`,
   * then `sort_values('alt_bin')`): strictly increasing, each holding at least
   * two samples.
   */
  function Keys(samples: seq<Sample>): (ks: seq<int>)
    ensures forall i :: 0 <= i < |ks| ==> Count(samples, ks[i]) >= 2
    ensures forall i, j :: 0 <= i < j < |ks| ==> ks[i] < ks[j]
  {
    if samples == [] then [] else KeysFrom(samples, IndexMin(samples), IndexMax(samples))
  }

  /** Every bin index holding two or more samples survives. */
  lemma KeysComplete(samples: seq<Sample>, k: int)
    requires Count(samples, k) >= 2
    ensures k in Keys(samples)
  {
    MembersSpec(samples, k);
    var s := Members(samples, k)[0];
    assert s in Members(samples, k);
    assert IndexMin(samples) <= k <= IndexMax(samples);
  }

  /** The value columns of a group of samples. */
  function Temps(ms: seq<Sample>): (t: seq<real>)
    ensures |t| == |ms| && forall i :: 0 <= i < |ms| ==> t[i] == ms[i].temp
  {
    seq(|ms|, i requires 0 <= i < |ms| => ms[i].temp)
  }

  function Pm25s(ms: seq<Sample>): (t: seq<real>)
    ensures |t| == |ms| && forall i :: 0 <= i < |ms| ==> t[i] == ms[i].pm25
  {
    seq(|ms|, i requires 0 <= i < |ms| => ms[i].pm25)
  }

  function Pm10s(ms: seq<Sample>): (t: seq<real>)
    ensures |t| == |ms| && forall i :: 0 <= i < |ms| ==> t[i] == ms[i].pm10
  {
    seq(|ms|, i requires 0 <= i < |ms| => ms[i].pm10)
  }

  /** The CO2 readings that are present; `mean()` skips the NaN ones. */
  function Co2Values(ms: seq<Sample>): (t: seq<real>)
    ensures |t| <= |ms|
    ensures forall x :: x in t <==> exists i :: 0 <= i < |ms| && ms[i].co2 == Some(x)
  {
    if ms == [] then []
    else
      var rest := Co2Values(ms[1..]);
      assert forall x :: ((exists i :: 0 <= i < |ms[1..]| && ms[1..][i].co2 == Some(x))
        <==> (exists i :: 1 <= i < |ms| && ms[i].co2 == Some(x)));
      (if ms[0].co2.Some? then [ms[0].co2.value] else []) + rest
  }

  /** `mean()` of a column that may hold NaN: `None` when no value is present. */
  function MeanOf(xs: seq<real>): Option<real> {
    if xs == [] then None else Some(Mean(xs))
  }

  /** One row of `perfil`, before the gradient columns. */
  datatype Bin = Bin(altBin: real, tempMean: real, pm25Mean: real, pm25Max: real, pm10Mean: real,
                     co2Mean: Option<real>, n: nat)

  /**
   * The `agg(...)` of one group: the bin floor, the means of temperature, PM2.5
   * and PM10, the largest PM2.5, the mean of the CO2 values present (NaN when
   * the group has none) and the group size.
   */
  function Aggregate(ms: seq<Sample>, k: int): (b: Bin)
    requires |ms| > 0
    ensures b.altBin == k as real * BinSize && b.n == |ms|
    ensures b.tempMean == Mean(Temps(ms)) && b.pm25Mean == Mean(Pm25s(ms)) && b.pm10Mean == Mean(Pm10s(ms))
    ensures SeqMin(Temps(ms)) <= b.tempMean <= SeqMax(Temps(ms))
    ensures SeqMin(Pm10s(ms)) <= b.pm10Mean <= SeqMax(Pm10s(ms))
    ensures b.pm25Mean <= b.pm25Max
    ensures forall i :: 0 <= i < |ms| ==> ms[i].pm25 <= b.pm25Max
    ensures exists i :: 0 <= i < |ms| && ms[i].pm25 == b.pm25Max
    ensures b.co2Mean == MeanOf(Co2Values(ms))
    ensures b.co2Mean.None? <==> forall i :: 0 <= i < |ms| ==> ms[i].co2.None?
  {
    MeanBounds(Pm25s(ms));
    MeanBounds(Temps(ms));
    MeanBounds(Pm10s(ms));
    var co2 := Co2Values(ms);
    assert co2 != [] ==> co2[0] in co2;
    Bin(k as real * BinSize, Mean(Temps(ms)), Mean(Pm25s(ms)), SeqMax(Pm25s(ms)), Mean(Pm10s(ms)),
      MeanOf(Co2Values(ms)), |ms|)
  }

  /**
   * `perfil` before its gradient: one aggregated row per surviving bin. Row
   * `i` has the floor of the `i`-th surviving bin, counts the samples with that
   * bin key (at least two) and has `pm25_max >= pm25_media`.
   */
  function Profile(samples: seq<Sample>): (p: seq<Bin>)
    ensures |p| == |Keys(samples)|
    ensures forall i :: 0 <= i < |p| ==>
      p[i].altBin == Keys(samples)[i] as real * BinSize
      && p[i].n == Count(samples, Keys(samples)[i]) >= 2
      && p[i].pm25Mean <= p[i].pm25Max
    ensures forall i :: 0 <= i < |p| ==> |Members(samples, Keys(samples)[i])| >= 2
    ensures forall i :: 0 <= i < |p| ==>
      p[i] == Aggregate(Members(samples, Keys(samples)[i]), Keys(samples)[i])
  {
    Rows(samples, Keys(samples))
  }

  /** One aggregated row per bin index of `ks`, in the order of `ks`. */
  function Rows(samples: seq<Sample>, ks: seq<int>): (p: seq<Bin>)
    requires forall i :: 0 <= i < |ks| ==> Count(samples, ks[i]) >= 2
    ensures |p| == |ks|
    ensures forall i :: 0 <= i < |p| ==>
      p[i].altBin == ks[i] as real * BinSize
      && p[i].n == Count(samples, ks[i])
      && p[i].pm25Mean <= p[i].pm25Max
    ensures forall i :: 0 <= i < |p| ==> |Members(samples, ks[i])| >= 2
    ensures forall i :: 0 <= i < |p| ==> p[i] == Aggregate(Members(samples, ks[i]), ks[i])
  {
    if ks == [] then []
    else
      assert Count(samples, ks[0]) >= 2;
      [Aggregate(Members(samples, ks[0]), ks[0])] + Rows(samples, ks[1..])
  }

  /** The profile rows go up strictly in altitude, at least one bin width apart. */
  lemma ProfileIncreasing(samples: seq<Sample>)
    ensures forall i, j :: 0 <= i < j < |Profile(samples)| ==>
      Profile(samples)[i].altBin + BinSize <= Profile(samples)[j].altBin
  {
  }

  /** A sample whose bin holds two or more samples is represented by a profile row with its bin key. */
  lemma ProfileComplete(samples: seq<Sample>, s: Sample)
    requires s in samples && Count(samples, BinIndex(s.alt)) >= 2
    ensures exists i :: 0 <= i < |Profile(samples)| && Profile(samples)[i].altBin == BinFloor(s.alt)
  {
    var k := BinIndex(s.alt);
    KeysComplete(samples, k);
    var ks, p := Keys(samples), Profile(samples);
    var i :| 0 <= i < |ks| && ks[i] == k;
    assert p[i].altBin == k as real * BinSize == BinFloor(s.alt);
  }

  /** One row of `perfil` with its gradient and flags. */
  datatype Layer = Layer(bin: Bin, gradient: Option<real>, inversion: bool, pm25Layer: bool)

  /** `temp_media.diff() / bin_size`: `None` (NaN) for the first row. */
  function Gradient(p: seq<Bin>, i: nat, w: real): Option<real>
    requires i < |p| && w > 0.0
  {
    if i == 0 then None else Some((p[i].tempMean - p[i - 1].tempMean) / w)
  }

  /** The `inversion` and `capa_pm25` columns. */
  function FlagLayers(p: seq<Bin>, w: real): (ls: seq<Layer>)
    requires w > 0.0
    ensures |ls| == |p|
    ensures forall i :: 0 <= i < |p| ==> ls[i].bin == p[i]
  {
    seq(|p|, i requires 0 <= i < |p| =>
      var g := Gradient(p, i, w);
      Layer(p[i], g, g.Some? && g.value > InversionThreshold / w, p[i].pm25Mean > Pm25LayerThreshold))
  }

  /** `detectar_inversiones`: one flagged row per profile row, in the same order. */
  function DetectInversions(samples: seq<Sample>): (ls: seq<Layer>)
    ensures |ls| == |Keys(samples)|
    ensures forall i :: 0 <= i < |ls| ==> ls[i].bin == Profile(samples)[i]
  {
    var p := Profile(samples);
    FlagLayers(p, BinSize)
  }

  /**
   * A row is an inversion exactly when it is not the first and its mean
   * temperature is more than 0.5 °C above that of the previous surviving row;
   * it is an accumulation layer exactly when its mean PM2.5 is above 15,
   * whatever the temperatures.
   */
  lemma FlagsIff(p: seq<Bin>, w: real, i: nat)
    requires w > 0.0 && i < |p|
    ensures FlagLayers(p, w)[i].bin == p[i]
    ensures FlagLayers(p, w)[i].gradient.None? <==> i == 0
    ensures FlagLayers(p, w)[i].inversion <==> i > 0 && p[i].tempMean - p[i - 1].tempMean > InversionThreshold
    ensures FlagLayers(p, w)[i].pm25Layer <==> p[i].pm25Mean > Pm25LayerThreshold
  {
    if i > 0 {
      DivStrict(InversionThreshold, p[i].tempMean - p[i - 1].tempMean, w);
    }
  }

  /**
   * The flags of `detectar_inversiones` in terms of the samples: row `i` is an
   * inversion exactly when it is not the first and the mean temperature of its
   * bin is more than 0.5 °C above that of the previous surviving bin, and an
   * accumulation layer exactly when the mean PM2.5 of its bin is above 15.
   */
  lemma DetectInversionsFlags(samples: seq<Sample>, i: nat)
    requires i < |Keys(samples)|
    ensures var ks, ls := Keys(samples), DetectInversions(samples);
      |Members(samples, ks[i])| >= 2
      && (ls[i].inversion <==> i > 0 && Mean(Temps(Members(samples, ks[i]))) - Mean(Temps(Members(samples, ks[i - 1]))) > InversionThreshold)
      && (ls[i].pm25Layer <==> Mean(Pm25s(Members(samples, ks[i]))) > Pm25LayerThreshold)
  {
    var p := Profile(samples);
    FlagsIff(p, BinSize, i);
  }

  /** A profile whose mean temperature falls at every step up has no inversion. */
  lemma CoolingHasNoInversion(p: seq<Bin>, w: real)
    requires w > 0.0
    requires forall i :: 0 < i < |p| ==> p[i].tempMean < p[i - 1].tempMean
    ensures forall i :: 0 <= i < |p| ==> !FlagLayers(p, w)[i].inversion
  {
    forall i | 0 <= i < |p|
      ensures !FlagLayers(p, w)[i].inversion
    {
      FlagsIff(p, w, i);
    }
  }

  /**
   * The gradient compares a row with the previous surviving row even when
   * bins in between were dropped, and still divides by one bin width: two
   * bins 100 m apart whose means differ by 0.8 °C are flagged.
   */
  lemma InversionAcrossDroppedBin()
    ensures var p := [Bin(0.0, 10.0, 5.0, 6.0, 8.0, None, 2), Bin(100.0, 10.8, 5.0, 6.0, 8.0, None, 2)];
      FlagLayers(p, 50.0)[1].inversion
  {
    var p := [Bin(0.0, 10.0, 5.0, 6.0, 8.0, None, 2), Bin(100.0, 10.8, 5.0, 6.0, 8.0, None, 2)];
    FlagsIff(p, 50.0, 1);
  }

  // ---------------------------------------------------------------------------
  // generar_mapa and generar_informe

  /** The four map colours of a PM2.5 reading. */
  datatype MapColor = Green | Amber | Orange | Red

  function MapColorRank(c: MapColor): nat {
    match c
    case Green => 0
    case Amber => 1
    case Orange => 2
    case Red => 3
  }

  function MapColorHex(c: MapColor): string {
    match c
    case Green => "#00AA00"
    case Amber => "#FFAA00"
    case Orange => "#FF6600"
    case Red => "#DD0000"
  }

  /** The band of `color_pm25`: WHO cut points 12, 35 and 55, each cut point in the band above. */
  function Pm25MapColor(pm: real): (c: MapColor)
    ensures c == Green <==> pm < 12.0
    ensures c == Red <==> pm >= 55.0
    ensures c == Amber <==> 12.0 <= pm < 35.0
  {
    if pm < 12.0 then Green else if pm < 35.0 then Amber else if pm < 55.0 then Orange else Red
  }

  /** `color_pm25` as the script writes it; a missing reading is read as 0. */
  function ColorPm25(pm: Option<real>): (hex: string)
    ensures hex == MapColorHex(Pm25MapColor(pm.GetOr(0.0)))
  {
    var v := pm.GetOr(0.0);
    if v < 12.0 then "#00AA00"
    else if v < 35.0 then "#FFAA00"
    else if v < 55.0 then "#FF6600"
    else "#DD0000"
  }

  /** More PM2.5 never gets a milder colour. */
  lemma Pm25MapColorMonotone(x: real, y: real)
    requires x <= y
    ensures MapColorRank(Pm25MapColor(x)) <= MapColorRank(Pm25MapColor(y))
  {
  }

  /**
   * `co2_rango < UMBRAL_CO2_VARIACION` over the present readings; with no
   * reading the range is NaN and the test fails.
   */
  function WellMixed(rows: seq<Sample>): bool {
    var co2 := Co2Values(rows);
    co2 != [] && SeqMax(co2) - SeqMin(co2) < Co2Variation
  }

  /** The atmosphere is reported well mixed exactly when some CO2 reading is present and every two readings differ by less than 20 ppm. */
  lemma WellMixedIff(rows: seq<Sample>)
    ensures WellMixed(rows) <==> Co2Values(rows) != [] && forall i, j :: 0 <= i < |Co2Values(rows)| && 0 <= j < |Co2Values(rows)| ==>
      Co2Values(rows)[i] - Co2Values(rows)[j] < Co2Variation
  {
    var co2 := Co2Values(rows);
    if co2 != [] {
      var hi, lo := SeqMax(co2), SeqMin(co2);
      var i :| 0 <= i < |co2| && co2[i] == hi;
      var j :| 0 <= j < |co2| && co2[j] == lo;
      assert co2[i] - co2[j] == hi - lo;
    }
  }
}
