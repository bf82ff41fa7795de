/**
 * The five-band air-quality classification that every analysis script repeats
 * with its own cut points: `x < c1` is the best band, `x >= c4` the worst, and
 * each cut point belongs to the band above it.
 */
module Bands {
  datatype Band = Excellent | Good | Moderate | Poor | VeryPoor

  /** Position from best (0) to worst (4). */
  function Rank(b: Band): (r: nat)
    ensures r < 5
  {
    match b
    case Excellent => 0
    case Good => 1
    case Moderate => 2
    case Poor => 3
    case VeryPoor => 4
  }

  function OfRank(r: nat): (b: Band)
    requires r < 5
    ensures Rank(b) == r
  {
    if r == 0 then Excellent
    else if r == 1 then Good
    else if r == 2 then Moderate
    else if r == 3 then Poor
    else VeryPoor
  }

  /** The four cut points, in the order the scripts list them. */
  datatype Cuts = Cuts(c1: real, c2: real, c3: real, c4: real)

  predicate Ordered(c: Cuts) {
    c.c1 <= c.c2 <= c.c3 <= c.c4
  }

  /** How many cut points `x` has reached; a cut point is reached when `x` is at or above it. */
  function Reached(c: Cuts, x: real): (n: nat)
    ensures n <= 4
  {
    (if c.c1 <= x then 1 else 0) + (if c.c2 <= x then 1 else 0)
      + (if c.c3 <= x then 1 else 0) + (if c.c4 <= x then 1 else 0)
  }

  /** Reference classification: the band is the number of cut points reached. */
  function BandOf(c: Cuts, x: real): Band {
    OfRank(Reached(c, x))
  }

  /** The half-open interval `[lower, upper)` of each band; the outer bands are unbounded. */
  predicate InBand(c: Cuts, b: Band, x: real) {
    match b
    case Excellent => x < c.c1
    case Good => c.c1 <= x < c.c2
    case Moderate => c.c2 <= x < c.c3
    case Poor => c.c3 <= x < c.c4
    case VeryPoor => c.c4 <= x
  }

  /** With ordered cut points, `x` is classified `b` exactly when it lies in `b`'s interval. */
  lemma BandInterval(c: Cuts, b: Band, x: real)
    requires Ordered(c)
    ensures BandOf(c, x) == b <==> InBand(c, b, x)
  {
    assert Rank(BandOf(c, x)) == Reached(c, x);
  }

  /** The intervals partition the reals: every value lies in exactly one band. */
  lemma BandsPartition(c: Cuts, x: real)
    requires Ordered(c)
    ensures InBand(c, BandOf(c, x), x)
    ensures forall b :: InBand(c, b, x) ==> b == BandOf(c, x)
  {
    BandInterval(c, BandOf(c, x), x);
    forall b | InBand(c, b, x)
      ensures b == BandOf(c, x)
    {
      BandInterval(c, b, x);
    }
  }

  /** A higher value never gets a better band. */
  lemma BandMonotone(c: Cuts, x: real, y: real)
    requires x <= y
    ensures Rank(BandOf(c, x)) <= Rank(BandOf(c, y))
  {
    assert Reached(c, x) <= Reached(c, y);
  }

  /** Number of values in `s` that `c` classifies as `b`. */
  function CountBand(c: Cuts, s: seq<real>, b: Band): (n: nat)
    ensures n <= |s|
  {
    if s == [] then 0 else (if BandOf(c, s[0]) == b then 1 else 0) + CountBand(c, s[1..], b)
  }

  /** Every value is counted in exactly one band. */
  lemma {:induction false} CountBandSum(c: Cuts, s: seq<real>)
    ensures CountBand(c, s, Excellent) + CountBand(c, s, Good) + CountBand(c, s, Moderate)
          + CountBand(c, s, Poor) + CountBand(c, s, VeryPoor) == |s|
  {
    if s != [] {
      CountBandSum(c, s[1..]);
    }
  }

  /** Number of values below `hi`, as in `len(df[df[col] < hi])`. */
  function CountBelow(s: seq<real>, hi: real): (n: nat)
    ensures n <= |s|
  {
    if s == [] then 0 else (if s[0] < hi then 1 else 0) + CountBelow(s[1..], hi)
  }

  /** Number of values in `[lo, hi)`, as in `len(df[(df[col] >= lo) & (df[col] < hi)])`. */
  function CountIn(s: seq<real>, lo: real, hi: real): (n: nat)
    ensures n <= |s|
  {
    if s == [] then 0 else (if lo <= s[0] < hi then 1 else 0) + CountIn(s[1..], lo, hi)
  }

  /** Number of values at or above `lo`, as in `len(df[df[col] >= lo])`. */
  function CountAtLeast(s: seq<real>, lo: real): (n: nat)
    ensures n <= |s|
  {
    if s == [] then 0 else (if lo <= s[0] then 1 else 0) + CountAtLeast(s[1..], lo)
  }

  /** Counting each band's half-open interval counts the values the classifier puts in that band. */
  lemma {:induction false} IntervalCounts(c: Cuts, s: seq<real>)
    requires Ordered(c)
    ensures CountBelow(s, c.c1) == CountBand(c, s, Excellent)
    ensures CountIn(s, c.c1, c.c2) == CountBand(c, s, Good)
    ensures CountIn(s, c.c2, c.c3) == CountBand(c, s, Moderate)
    ensures CountIn(s, c.c3, c.c4) == CountBand(c, s, Poor)
    ensures CountAtLeast(s, c.c4) == CountBand(c, s, VeryPoor)
  {
    if s != [] {
      IntervalCounts(c, s[1..]);
      BandsPartition(c, s[0]);
    }
  }
}
