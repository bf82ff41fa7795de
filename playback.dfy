/**
 * The mission playback (`software/vuelo/panel_web/caelum_playback_v2.py`):
 * rows of a recorded CSV become payloads under the CSV's own column names,
 * uploaded under a route chosen by which recording is present.
 */
module Playback {
  import opened Wrappers
  import opened Text
  import opened PyMath
  import opened TelemetryReceiver

  /** `CAMPOS_NUMERICOS`: the columns sent as numbers. */
  const NumericFields: set<string> := {
    "timestamp", "lat", "lon", "alt", "alt_mar", "sats",
    "temp_hs", "hum_hs", "temp_scd", "hum_scd", "temp_lps", "presion",
    "co2", "pm1_0", "pm2_5", "pm10",
    "accel_x", "accel_y", "accel_z", "gyro_x", "gyro_y", "gyro_z"}

  /** `CAMPOS_TEXTO`: the columns sent as text. */
  const TextFields: set<string> := {"datetime", "fase"}

  /** The real recording of the competition flight and its route. */
  const FlightFile: string := "caelum_datos_vuelo.csv"
  const ReplayRoute: string := "/cansat/replay"

  /** The simulated flight and its route. */
  const SimFile: string := "vuelo_brunete_17marzo.csv"
  const SimRoute: string := "/cansat/simulacion"

  /** A cell of a `csv.DictReader` row: the text read, or `None` when the row is short. */
  datatype Cell = Field(text: string) | Missing

  /** How `construir_payload` treats a column: converted to a number, kept as text, or dropped. */
  datatype FieldKind = Numeric | Text | Dropped

  /** The `if`/`elif` of `construir_payload` on a stripped column name. */
  function KindOf(campo: string): (kind: FieldKind)
    ensures kind == Dropped <==> campo !in NumericFields && campo !in TextFields
  {
    if campo in NumericFields then Numeric else if campo in TextFields then Text else Dropped
  }

  /** `float(valor)`, or 0.0 when Python raises `ValueError` (bad text) or `TypeError` (`None`). */
  function NumberValue(valor: Cell): real {
    match valor
    case Field(t) => NumberOr0(t)
    case Missing => 0.0
  }

  /** `str(valor).strip()`: `None` prints as `"None"`. */
  function TextValue(valor: Cell): (t: string)
    ensures Trimmed(t)
  {
    match valor
    case Field(s) => Strip(s)
    case Missing => Strip("None")
  }

  /** The payload value a cell takes under a column of kind `kind` (used only when the column is kept). */
  function Converted(kind: FieldKind, valor: Cell): (v: Value)
    ensures v.Num? <==> kind == Numeric
    ensures v.Str? ==> Trimmed(v.s)
    ensures valor.Missing? && kind == Numeric ==> v == Num(0.0)
  {
    if kind == Numeric then Num(NumberValue(valor)) else Str(TextValue(valor))
  }

  /** The column names of a row, stripped as `construir_payload` strips them. */
  function Names(row: seq<(string, Cell)>): (names: seq<string>)
    ensures |names| == |row|
    ensures forall j :: 0 <= j < |row| ==> names[j] == Strip(row[j].0)
  {
    seq(|row|, j requires 0 <= j < |row| => Strip(row[j].0))
  }

  /** The converted cells of a row, each under the kind of its stripped name. */
  function Values(kind: string -> FieldKind, row: seq<(string, Cell)>): (values: seq<Value>)
    ensures |values| == |row|
    ensures forall j :: 0 <= j < |row| ==> values[j] == Converted(kind(Strip(row[j].0)), row[j].1)
  {
    seq(|row|, j requires 0 <= j < |row| => Converted(kind(Strip(row[j].0)), row[j].1))
  }

  /** The values stored one after another under their names, in order; dropped names are skipped. */
  function Fill(kind: string -> FieldKind, names: seq<string>, values: seq<Value>): map<string, Value>
    requires |names| == |values|
    decreases |names|
  {
    if names == [] then map[]
    else
      var n := |names| - 1;
      var before := Fill(kind, names[..n], values[..n]);
      if kind(names[n]) != Dropped then before[names[n] := values[n]] else before
  }

  /** The payload of a row, its columns classified by `kind` (the source's `kind` is `KindOf`). */
  function Payload(kind: string -> FieldKind, row: seq<(string, Cell)>): map<string, Value> {
    Fill(kind, Names(row), Values(kind, row))
  }

  /**
   * `construir_payload`. `row` holds the cells under the header's names; `rest`
   * holds the cells of a row longer than the header, which `csv.DictReader`
   * stores as one list under the key `None`, after the named cells. Reaching
   * that key, `campo.strip()` raises `AttributeError` outside any `try`, so the
   * row gives no payload (`None`) and `ejecutar_mision` stops.
   */
  method BuildPayload(row: seq<(string, Cell)>, rest: seq<string>) returns (payload: Option<map<string, Value>>)
    ensures payload.None? <==> rest != []
    ensures payload.Some? ==> payload.value == Payload(KindOf, row)
  {
    var filled := FillNamed(row);
    payload := if rest == [] then Some(filled) else None;
  }

  /** The loop of `construir_payload` over the named cells, item by item. */
  method FillNamed(row: seq<(string, Cell)>) returns (payload: map<string, Value>)
    ensures payload == Payload(KindOf, row)
  {
    ghost var names, values := Names(row), Values(KindOf, row);
    payload := map[];
    var i := 0;
    while i < |row|
      invariant 0 <= i <= |row|
      invariant payload == Fill(KindOf, names[..i], values[..i])
    {
      var campo := Strip(row[i].0);
      var kind := KindOf(campo);
      FillStep(KindOf, names, values, i);
      assert names[i] == campo && values[i] == Converted(kind, row[i].1);
      if kind == Numeric {
        payload := payload[campo := Num(NumberValue(row[i].1))];
      } else if kind == Text {
        payload := payload[campo := Str(TextValue(row[i].1))];
      }
      i := i + 1;
    }
    assert names[..i] == names && values[..i] == values;
  }

  /** Filling one more item stores it under its name, unless the name is dropped. */
  lemma FillStep(kind: string -> FieldKind, names: seq<string>, values: seq<Value>, i: nat)
    requires |names| == |values| && i < |names|
    ensures Fill(kind, names[..i + 1], values[..i + 1]) ==
      var before := Fill(kind, names[..i], values[..i]);
      if kind(names[i]) != Dropped then before[names[i] := values[i]] else before
  {
    assert names[..i + 1][..i] == names[..i] && values[..i + 1][..i] == values[..i];
  }

  /** The filled map's keys are exactly the kept names. */
  lemma {:induction false} FillKeys(kind: string -> FieldKind, names: seq<string>, values: seq<Value>, k: string)
    requires |names| == |values|
    ensures k in Fill(kind, names, values) <==> kind(k) != Dropped && k in names
    decreases |names|
  {
    if names != [] {
      var n := |names| - 1;
      FillKeys(kind, names[..n], values[..n], k);
      assert names == names[..n] + [names[n]];
    }
  }

  /** The value under a name is the value of that name's last occurrence. */
  lemma {:induction false} FillLastWins(kind: string -> FieldKind, names: seq<string>, values: seq<Value>, j: nat)
    requires |names| == |values| && j < |names| && kind(names[j]) != Dropped
    requires forall l :: j < l < |names| ==> names[l] != names[j]
    ensures names[j] in Fill(kind, names, values)
    ensures Fill(kind, names, values)[names[j]] == values[j]
    decreases |names|
  {
    var n := |names| - 1;
    if j < n {
      FillLastWins(kind, names[..n], values[..n], j);
    }
  }

  /** Every stored value comes from an occurrence of its name. */
  lemma {:induction false} FillValueFrom(kind: string -> FieldKind, names: seq<string>, values: seq<Value>, k: string)
    requires |names| == |values| && k in Fill(kind, names, values)
    ensures exists j :: 0 <= j < |names| && names[j] == k && Fill(kind, names, values)[k] == values[j]
    decreases |names|
  {
    var n := |names| - 1;
    if !(kind(names[n]) != Dropped && names[n] == k) {
      FillValueFrom(kind, names[..n], values[..n], k);
      var j :| 0 <= j < n && names[..n][j] == k && Fill(kind, names[..n], values[..n])[k] == values[..n][j];
      assert names[j] == k && values[j] == values[..n][j];
    }
  }

  /**
   * The payload's keys are exactly the kept column names of the row, after
   * stripping: any other column is dropped.
   */
  lemma PayloadKeys(kind: string -> FieldKind, row: seq<(string, Cell)>, k: string)
    ensures k in Payload(kind, row) <==> kind(k) != Dropped && k in Names(row)
  {
    FillKeys(kind, Names(row), Values(kind, row), k);
  }

  /**
   * When a stripped column name appears more than once, the last
   * occurrence wins: its converted value is the one in the payload.
   */
  lemma PayloadLastWins(kind: string -> FieldKind, row: seq<(string, Cell)>, j: nat)
    requires j < |row| && kind(Strip(row[j].0)) != Dropped
    requires forall l :: j < l < |row| ==> Strip(row[l].0) != Strip(row[j].0)
    ensures Strip(row[j].0) in Payload(kind, row)
    ensures Payload(kind, row)[Strip(row[j].0)] == Converted(kind(Strip(row[j].0)), row[j].1)
  {
    FillLastWins(kind, Names(row), Values(kind, row), j);
  }

  /** A payload value is a number exactly when its column is numeric, and text values are stripped. */
  lemma PayloadValueKinds(kind: string -> FieldKind, row: seq<(string, Cell)>, k: string)
    requires k in Payload(kind, row)
    ensures Payload(kind, row)[k].Num? <==> kind(k) == Numeric
    ensures Payload(kind, row)[k].Str? ==> Trimmed(Payload(kind, row)[k].s)
  {
    var names, values := Names(row), Values(kind, row);
    FillValueFrom(kind, names, values, k);
    var j :| 0 <= j < |names| && names[j] == k && Payload(kind, row)[k] == values[j];
    assert values[j] == Converted(kind(k), row[j].1);
  }

  /** `timestamp` is a numeric column. */
  lemma TimestampNumeric()
    ensures KindOf("timestamp") == Numeric
  {
    assert "timestamp" in NumericFields;
  }

  /** No column is both numeric and text. */
  lemma FieldSetsDisjoint()
    ensures NumericFields !! TextFields
  {
  }

  /** `detectar_fichero`, with the existence of each recording as an input: the file and its route. */
  function DetectFile(flightExists: bool, simExists: bool): (r: Option<(string, string)>)
    ensures r.None? <==> !flightExists && !simExists
    ensures r.Some? && r.value.0 == FlightFile <==> flightExists
  {
    if flightExists then Some((FlightFile, ReplayRoute))
    else if simExists then Some((SimFile, SimRoute))
    else None
  }

  /** The mode shown on the console: the last `/` segment of the route, upper-cased. */
  function Mode(route: string): string {
    var parts := Split(route, '/');
    Upper(parts[|parts| - 1])
  }

  /** `a/b` with no `/` in either `a` or `b` splits into `[a, b]`. */
  lemma SplitTwo(a: string, b: string, sep: char)
    requires sep !in a && sep !in b
    ensures Split(a + [sep] + b, sep) == [a, b]
  {
    var s := a + [sep] + b;
    IndexOfFirst(a, b, sep);
    assert s[..|a|] == a && s[|a| + 1..] == b;
    assert IndexOf(b, sep) == |b|;
  }

  /** The last part of `a/b`, split on `/`, is `b` when `b` holds no `/`. */
  lemma {:induction false} SplitLast(a: string, b: string, sep: char)
    requires sep !in b
    ensures var p := Split(a + [sep] + b, sep); p[|p| - 1] == b
    decreases |a|
  {
    if sep !in a {
      SplitTwo(a, b, sep);
    } else {
      var s := a + [sep] + b;
      var k := IndexOf(s, sep);
      assert k < |a| by {
        var m :| 0 <= m < |a| && a[m] == sep;
        assert s[m] == sep;
      }
      DropConcat(a, [sep] + b, k + 1);
      assert s == a + ([sep] + b);
      assert a[k + 1..] + [sep] + b == a[k + 1..] + ([sep] + b);
      assert s[k + 1..] == a[k + 1..] + [sep] + b;
      var tail := Split(a[k + 1..] + [sep] + b, sep);
      assert Split(s, sep) == [s[..k]] + tail;
      SplitLast(a[k + 1..], b, sep);
    }
  }

  /** Dropping a prefix of `a` from `a + x` leaves the rest of `a`, then `x`. */
  lemma DropConcat(a: string, x: string, j: nat)
    requires j <= |a|
    ensures (a + x)[j..] == a[j..] + x
  {
  }

  /** The mode of a route `a/b` whose last segment `b` holds no `/` is `b` upper-cased. */
  lemma ModeOfLastSegment(a: string, b: string)
    requires '/' !in b
    ensures Mode(a + ['/'] + b) == Upper(b)
  {
    SplitLast(a, b, '/');
  }

  /** The replay route's mode is `REPLAY`. */
  lemma ReplayMode()
    ensures Mode(ReplayRoute) == "REPLAY"
  {
    var b := "replay";
    forall k | 0 <= k < |b|
      ensures b[k] != '/' && UpperChar(b[k]) == "REPLAY"[k]
    {
      if k == 0 {} else if k == 1 {} else if k == 2 {} else if k == 3 {} else if k == 4 {} else {}
    }
    assert Upper(b) == "REPLAY";
    assert ReplayRoute == "/cansat" + ['/'] + b;
    ModeOfLastSegment("/cansat", b);
  }

  /** The simulation route's mode is `SIMULACION`. */
  lemma SimulationMode()
    ensures Mode(SimRoute) == "SIMULACION"
  {
    var b := "simulacion";
    forall k | 0 <= k < |b|
      ensures b[k] != '/' && UpperChar(b[k]) == "SIMULACION"[k]
    {
      if k == 0 {} else if k == 1 {} else if k == 2 {} else if k == 3 {} else if k == 4 {}
      else if k == 5 {} else if k == 6 {} else if k == 7 {} else if k == 8 {} else {}
    }
    assert Upper(b) == "SIMULACION";
    assert SimRoute == "/cansat" + ['/'] + b;
    ModeOfLastSegment("/cansat", b);
  }

  /** The mode announces which recording is played: `REPLAY` for the flight, `SIMULACION` otherwise. */
  lemma DetectedMode(flightExists: bool, simExists: bool)
    requires flightExists || simExists
    ensures DetectFile(flightExists, simExists).Some?
    ensures Mode(DetectFile(flightExists, simExists).value.1) == if flightExists then "REPLAY" else "SIMULACION"
  {
    if flightExists {
      ReplayMode();
    } else {
      SimulationMode();
    }
  }

  /**
   * The key a row is uploaded under: `int(payload.get('timestamp', i))`.
   * `None` is the `except` path, in which the row is not sent.
   */
  function UploadKey(payload: map<string, Value>, i: nat): Option<int> {
    if "timestamp" in payload then
      match payload["timestamp"]
      case Num(x) => Some(Trunc(x))
      case Str(_) => None
    else Some(i)
  }

  /** A row without a `timestamp` column is uploaded under its position. */
  lemma UploadKeyFallback(row: seq<(string, Cell)>, i: nat)
    requires forall j :: 0 <= j < |row| ==> Strip(row[j].0) != "timestamp"
    ensures UploadKey(Payload(KindOf, row), i) == Some(i)
  {
    PayloadKeys(KindOf, row, "timestamp");
    assert "timestamp" !in Names(row);
  }

  /** Every payload built from a row gets an upload key: its timestamp, when present, is a number. */
  lemma UploadKeyDefined(row: seq<(string, Cell)>, i: nat)
    ensures UploadKey(Payload(KindOf, row), i).Some?
  {
    var p := Payload(KindOf, row);
    if "timestamp" in p {
      TimestampNumeric();
      PayloadValueKinds(KindOf, row, "timestamp");
    }
  }

  /** A cell holding the digits of `n` converts to the number `n`. */
  lemma NumberValueWhole(n: nat)
    ensures NumberValue(Field(NatToString(n))) == n as real
  {
    ParseFloatNat(n);
  }

  /** A row whose last `timestamp` cell holds the digits of `n` is uploaded under `n`. */
  lemma UploadKeyWhole(row: seq<(string, Cell)>, i: nat, j: nat, n: nat)
    requires j < |row| && Strip(row[j].0) == "timestamp" && row[j].1 == Field(NatToString(n))
    requires forall l :: j < l < |row| ==> Strip(row[l].0) != "timestamp"
    ensures UploadKey(Payload(KindOf, row), i) == Some(n)
  {
    var p := Payload(KindOf, row);
    TimestampNumeric();
    PayloadLastWins(KindOf, row, j);
    assert p["timestamp"] == Converted(Numeric, Field(NatToString(n)));
    NumberValueWhole(n);
    assert p["timestamp"] == Num(n as real);
  }
}
