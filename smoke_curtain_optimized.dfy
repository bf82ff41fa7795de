/**
 * The optimised smoke-curtain map (`mapa_cortina_optimizado.py`): the same
 * style with tighter TVOC cut points, and a summary that classifies the
 * samples with `pd.cut`.
 */
module SmokeCurtainOptimized {
  import opened Wrappers
  import opened Bands
  import opened SmokeStyle

  /** This script's TVOC cut points (ppb). */
  const OptimizedCuts := Cuts(300.0, 660.0, 1000.0, 2000.0)

  /** `get_smoke_color`: strict `<` tests against 300, 660, 1000 and 2000 ppb. */
  function SmokeColor(tvoc: real): (r: (string, real))
    ensures r == Palette(BandOf(OptimizedCuts, tvoc))
  {
    if tvoc < 300.0 then ("#66ff66", 0.25)
    else if tvoc < 660.0 then ("#ffff44", 0.45)
    else if tvoc < 1000.0 then ("#ffaa33", 0.55)
    else if tvoc < 2000.0 then ("#ff4444", 0.65)
    else ("#bb2222", 0.75)
  }

  /** A higher TVOC is never drawn fainter. */
  lemma SmokeOpacityMonotone(x: real, y: real)
    requires x <= y
    ensures SmokeColor(x).1 <= SmokeColor(y).1
  {
    BandMonotone(OptimizedCuts, x, y);
    if BandOf(OptimizedCuts, x) != BandOf(OptimizedCuts, y) {
      PaletteOpacityIncreasing(BandOf(OptimizedCuts, x), BandOf(OptimizedCuts, y));
    }
  }

  /**
   * The circles drawn for one sample (the same arithmetic as the other curtain map)
   * are nested and fade outwards while staying visible.
   */
  lemma CurtainLayersNested(tvoc: real)
    requires tvoc > -2000.0
    ensures var ls := Layers(tvoc, SmokeColor(tvoc).1);
      forall i, j :: 0 <= i < j < 4 ==> ls[i].radius < ls[j].radius && ls[i].opacity > ls[j].opacity > 0.0
  {
    LayersNested(tvoc, SmokeColor(tvoc).1);
  }

  /**
   * The summary level as written: `pd.cut` with bins `[0, 300, 660, 1000, 2000, 10000]`
   * and its default right-closed intervals `(0, 300]`, `(300, 660]`, …, `(2000, 10000]`;
   * values outside `(0, 10000]` get no level.
   */
  function LevelAsWritten(tvoc: real): Option<Band> {
    if tvoc <= 0.0 || tvoc > 10000.0 then None
    else if tvoc <= 300.0 then Some(Excellent)
    else if tvoc <= 660.0 then Some(Good)
    else if tvoc <= 1000.0 then Some(Moderate)
    else if tvoc <= 2000.0 then Some(Poor)
    else Some(VeryPoor)
  }

  /**
   * The right-closed levels agree with the map colour everywhere inside `(0, 10000)`
   * except exactly at the four cut points, where the summary puts the value one band
   * lower than the colour does.
   */
  lemma LevelAsWrittenDisagrees(tvoc: real)
    requires 0.0 < tvoc < 10000.0
    ensures LevelAsWritten(tvoc).Some?
    ensures LevelAsWritten(tvoc) == Some(BandOf(OptimizedCuts, tvoc))
        <==> tvoc != 300.0 && tvoc != 660.0 && tvoc != 1000.0 && tvoc != 2000.0
  {
  }

  /** 300 ppb is "Excelente" in the summary but drawn with the "Buena" colour. */
  lemma BoundaryCounterexample()
    ensures LevelAsWritten(300.0) == Some(Excellent)
    ensures SmokeColor(300.0) == Palette(Good)
  {
  }

  /**
   * The summary level with the intervals the map uses: `[0, 300)`, `[300, 660)`, …,
   * `[2000, 10000)`, i.e. `pd.cut(..., right=False)`.
   */
  function Level(tvoc: real): (r: Option<Band>)
    ensures r.Some? <==> 0.0 <= tvoc < 10000.0
  {
    if tvoc < 0.0 || tvoc >= 10000.0 then None
    else if tvoc < 300.0 then Some(Excellent)
    else if tvoc < 660.0 then Some(Good)
    else if tvoc < 1000.0 then Some(Moderate)
    else if tvoc < 2000.0 then Some(Poor)
    else Some(VeryPoor)
  }

  /** With left-closed intervals every summarised value gets the level of its colour. */
  lemma LevelMatchesColour(tvoc: real)
    requires 0.0 <= tvoc < 10000.0
    ensures Level(tvoc) == Some(BandOf(OptimizedCuts, tvoc))
    ensures SmokeColor(tvoc) == Palette(Level(tvoc).value)
  {
  }

  /** Number of samples with level `b`: `(clasificacion == nivel).sum()`. */
  function CountLevel(tvoc: seq<real>, b: Band): (n: nat)
    ensures n <= |tvoc|
  {
    if tvoc == [] then 0 else (if Level(tvoc[0]) == Some(b) then 1 else 0) + CountLevel(tvoc[1..], b)
  }

  /** For readings in `[0, 10000)` the summary counts are exactly the colour bands' counts. */
  lemma {:induction false} CountLevelMatchesColours(tvoc: seq<real>, b: Band)
    requires forall k :: 0 <= k < |tvoc| ==> 0.0 <= tvoc[k] < 10000.0
    ensures CountLevel(tvoc, b) == CountBand(OptimizedCuts, tvoc, b)
  {
    if tvoc != [] {
      LevelMatchesColour(tvoc[0]);
      CountLevelMatchesColours(tvoc[1..], b);
    }
  }
}
