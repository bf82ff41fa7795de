/**
 * First-match decision tables: the pollution-signature detectors are `if/elif`
 * chains of threshold tests over one sensor reading, where the first test that
 * holds decides and a final `else` gives the fallback. A table written as data
 * is the reference each script's chain is proved equal to.
 */
module Rules {
  /** The sensor quantities the signature rules look at. */
  datatype Channel = Co2 | Pm25 | Pm10 | Tvoc | ECo2 | H2 | Ethanol

  /** One reading of every channel (ppm, µg/m³, ppb or raw counts, as the sensors give them). */
  datatype Reading = Reading(co2: real, pm25: real, pm10: real, tvoc: real, eco2: real, h2: real, ethanol: real)

  function Value(r: Reading, ch: Channel): real {
    match ch
    case Co2 => r.co2
    case Pm25 => r.pm25
    case Pm10 => r.pm10
    case Tvoc => r.tvoc
    case ECo2 => r.eco2
    case H2 => r.h2
    case Ethanol => r.ethanol
  }

  /** A threshold test, or a conjunction or disjunction of tests. */
  datatype Cond =
    | Above(ch: Channel, t: real)
    | Below(ch: Channel, t: real)
    | AtLeast(ch: Channel, t: real)
    | AtMost(ch: Channel, t: real)
    | Both(left: Cond, right: Cond)
    | Either(left: Cond, right: Cond)

  predicate Holds(c: Cond, r: Reading) {
    match c
    case Above(ch, t) => Value(r, ch) > t
    case Below(ch, t) => Value(r, ch) < t
    case AtLeast(ch, t) => Value(r, ch) >= t
    case AtMost(ch, t) => Value(r, ch) <= t
    case Both(a, b) => Holds(a, r) && Holds(b, r)
    case Either(a, b) => Holds(a, r) || Holds(b, r)
  }

  /** The channels a condition reads. */
  function Reads(c: Cond): set<Channel> {
    match c
    case Above(ch, _) => {ch}
    case Below(ch, _) => {ch}
    case AtLeast(ch, _) => {ch}
    case AtMost(ch, _) => {ch}
    case Both(a, b) => Reads(a) + Reads(b)
    case Either(a, b) => Reads(a) + Reads(b)
  }

  datatype Rule<T> = Rule(when: Cond, result: T)

  /** Index of the first rule whose condition holds, or `|rules|` when none does. */
  function FirstHit<T>(rules: seq<Rule<T>>, r: Reading): (k: nat)
    ensures k <= |rules|
    ensures k < |rules| ==> Holds(rules[k].when, r)
    ensures forall j :: 0 <= j < k ==> !Holds(rules[j].when, r)
  {
    if |rules| == 0 then 0
    else if Holds(rules[0].when, r) then 0
    else 1 + FirstHit(rules[1..], r)
  }

  /** The result of the first rule that holds, or `fallback`. */
  function Decide<T>(rules: seq<Rule<T>>, fallback: T, r: Reading): T {
    var k := FirstHit(rules, r);
    if k < |rules| then rules[k].result else fallback
  }

  /** A rule that holds, with no earlier rule holding, decides the result. */
  lemma DecideFirst<T>(rules: seq<Rule<T>>, fallback: T, r: Reading, i: nat)
    requires i < |rules| && Holds(rules[i].when, r)
    requires forall j :: 0 <= j < i ==> !Holds(rules[j].when, r)
    ensures Decide(rules, fallback, r) == rules[i].result
  {
  }

  /** When no rule holds the fallback is returned. */
  lemma DecideFallback<T>(rules: seq<Rule<T>>, fallback: T, r: Reading)
    requires forall j :: 0 <= j < |rules| ==> !Holds(rules[j].when, r)
    ensures Decide(rules, fallback, r) == fallback
  {
  }

  /** Deciding a table is trying its first rule and otherwise deciding the rest. */
  lemma DecideCons<T>(rules: seq<Rule<T>>, fallback: T, r: Reading)
    requires |rules| > 0
    ensures Decide(rules, fallback, r)
         == if Holds(rules[0].when, r) then rules[0].result else Decide(rules[1..], fallback, r)
  {
  }

  /** Two readings that agree on every channel the table reads get the same decision. */
  lemma {:induction false} DecideIgnores<T>(rules: seq<Rule<T>>, fallback: T, r: Reading, s: Reading)
    requires forall j, ch :: 0 <= j < |rules| && ch in Reads(rules[j].when) ==> Value(r, ch) == Value(s, ch)
    ensures Decide(rules, fallback, r) == Decide(rules, fallback, s)
  {
    FirstHitIgnores(rules, r, s);
  }

  lemma {:induction false} FirstHitIgnores<T>(rules: seq<Rule<T>>, r: Reading, s: Reading)
    requires forall j, ch :: 0 <= j < |rules| && ch in Reads(rules[j].when) ==> Value(r, ch) == Value(s, ch)
    ensures FirstHit(rules, r) == FirstHit(rules, s)
  {
    if |rules| > 0 {
      HoldsIgnores(rules[0].when, r, s);
      FirstHitIgnores(rules[1..], r, s);
    }
  }

  lemma {:induction false} HoldsIgnores(c: Cond, r: Reading, s: Reading)
    requires forall ch :: ch in Reads(c) ==> Value(r, ch) == Value(s, ch)
    ensures Holds(c, r) == Holds(c, s)
  {
    match c
    case Both(a, b) =>
      HoldsIgnores(a, r, s);
      HoldsIgnores(b, r, s);
    case Either(a, b) =>
      HoldsIgnores(a, r, s);
      HoldsIgnores(b, r, s);
    case _ =>
  }
}
