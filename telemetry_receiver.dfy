/**
 * `parsear_linea` of the ground station (`software/vuelo/panel_web/receptor_telemetria.py`):
 * a CSV line received from the radio becomes a payload keyed by the fixed
 * telemetry header, numeric fields as numbers and the rest as text.
 */
module TelemetryReceiver {
  import opened Wrappers
  import opened Text

  /** `CABECERA`: the 24 column names, in the order the flight computer writes them. */
  const Header: seq<string> := [
    "timestamp", "datetime", "lat", "lon", "alt", "alt_mar", "sats",
    "temp_hs", "hum_hs", "temp_scd", "hum_scd", "temp_lps", "presion",
    "co2", "pm1_0", "pm2_5", "pm10",
    "accel_x", "accel_y", "accel_z", "gyro_x", "gyro_y", "gyro_z", "fase"]

  /** `CAMPOS_FLOAT`: the columns sent as numbers. */
  const FloatFields: set<string> := {
    "timestamp", "lat", "lon", "alt", "alt_mar", "sats",
    "temp_hs", "hum_hs", "temp_scd", "hum_scd", "temp_lps", "presion",
    "co2", "pm1_0", "pm2_5", "pm10",
    "accel_x", "accel_y", "accel_z", "gyro_x", "gyro_y", "gyro_z"}

  /** The fewest parts a line may have. */
  const MinParts: nat := 23

  /** A payload value: a number or a string. */
  datatype Value = Num(x: real) | Str(s: string)

  /** The header positions of the numeric fields: all but `datetime` (1) and `fase` (23). */
  predicate NumericColumn(i: nat) {
    i != 1 && i != 23
  }

  /** The two text columns sit at positions 1 and 23. */
  lemma TextColumns()
    ensures Header[1] == "datetime" && Header[23] == "fase"
  {
  }

  /** A header position holds a numeric field exactly when it is a numeric column. */
  lemma NumericColumnIff(i: nat)
    requires i < |Header|
    ensures Header[i] in FloatFields <==> NumericColumn(i)
  {
    FloatFieldsAreHeaderMinusText();
    var f := Header[i];
    assert f in Header;
    TextColumns();
    if i == 0 {
      DistinctNames(0, 1);
    } else if i > 1 {
      DistinctNames(1, i);
    }
    if i < 23 {
      DistinctNames(i, 23);
    }
  }

  /** The numeric fields are exactly the header without `datetime` and `fase`. */
  lemma FloatFieldsAreHeaderMinusText()
    ensures |Header| == 24
    ensures forall f :: f in FloatFields <==> f in Header && f != "datetime" && f != "fase"
  {
    forall f
      ensures f in FloatFields <==> f in Header && f != "datetime" && f != "fase"
    {
      if f in Header {
        var i :| 0 <= i < |Header| && Header[i] == f;
        assert i == 1 || i == 23 || f in FloatFields;
      }
    }
  }

  /** No column name appears twice in the header, so no field overwrites another. */
  lemma HeaderDistinct()
    ensures forall i, j :: 0 <= i < j < |Header| ==> Header[i] != Header[j]
  {
    forall i, j | 0 <= i < j < |Header|
      ensures Header[i] != Header[j]
    {
      assert Header[i][..] != Header[j][..] by {
        DistinctNames(i, j);
      }
    }
  }

  /** Two header positions hold different names: they differ in length or in some character. */
  lemma DistinctNames(i: nat, j: nat)
    requires i < j < |Header|
    ensures Header[i] != Header[j]
  {
    var a, b := Header[i], Header[j];
    if |a| == |b| {
      var k := FirstDifference(i, j);
      assert a[k] != b[k];
    }
  }

  /** A position at which two same-length header names differ. */
  function FirstDifference(i: nat, j: nat): (k: nat)
    requires i < j < |Header| && |Header[i]| == |Header[j]|
    ensures k < |Header[i]| && Header[i][k] != Header[j][k]
  {
    var a, b := Header[i], Header[j];
    if a[0] != b[0] then 0
    else if a[1] != b[1] then 1
    else if a[2] != b[2] then 2
    else if |a| > 3 && a[3] != b[3] then 3
    else if |a| > 4 && a[4] != b[4] then 4
    else if |a| > 5 && a[5] != b[5] then 5
    else if |a| > 6 && a[6] != b[6] then 6
    else 7
  }

  /** The comma-separated parts of a stripped line. */
  function Parts(line: string): (parts: seq<string>)
    ensures |parts| >= 1
  {
    Split(Strip(line), ',')
  }

  /** A line is kept when it has at least 23 parts and its first part is not the header's `timestamp`. */
  predicate Accepted(line: string) {
    var parts := Parts(line);
    |parts| >= MinParts && Lower(Strip(parts[0])) != "timestamp"
  }

  /** A numeric text: `float()` of it, or 0.0 when Python raises `ValueError`. */
  function NumberOr0(v: string): real {
    match ParseFloat(v)
    case Some(x) => x
    case None => 0.0
  }

  /** The payload value of header position `i` for the parts of an accepted line. */
  function FieldValue(parts: seq<string>, i: nat): (v: Value)
    requires i < |Header|
    ensures v.Num? <==> NumericColumn(i)
    ensures v.Str? ==> Trimmed(v.s)
    ensures i >= |parts| ==> v == Num(0.0) || v == Str("")
  {
    if i >= |parts| then (if NumericColumn(i) then Num(0.0) else Str(""))
    else
      var valor := Strip(parts[i]);
      if NumericColumn(i) then Num(NumberOr0(valor)) else Str(valor)
  }

  /**
   * `parsear_linea`: `None` exactly for a line that is not accepted; otherwise a
   * payload whose keys are exactly the header names and whose value for each
   * name is the converted part at that name's position.
   */
  method ParseLine(line: string) returns (r: Option<map<string, Value>>)
    ensures r.None? <==> !Accepted(line)
    ensures r.Some? ==> forall k :: k in r.value ==> exists i :: 0 <= i < |Header| && Header[i] == k
    ensures r.Some? ==> forall i :: 0 <= i < |Header| ==> Header[i] in r.value && r.value[Header[i]] == FieldValue(Parts(line), i)
  {
    var partes := Parts(line);
    if |partes| < MinParts {
      return None;
    }
    if Lower(Strip(partes[0])) == "timestamp" {
      return None;
    }
    var payload: map<string, Value> := map[];
    var i := 0;
    while i < |Header|
      invariant 0 <= i <= |Header|
      invariant HoldsPrefix(payload, partes, i)
    {
      var before := payload;
      payload := payload[Header[i] := FieldValue(partes, i)];
      StepKeepsPrefix(before, payload, partes, i);
      i := i + 1;
    }
    return Some(payload);
  }

  /** The payload holds exactly the first `n` header names, each with the value of its position. */
  ghost predicate HoldsPrefix(payload: map<string, Value>, partes: seq<string>, n: nat)
    requires n <= |Header|
  {
    (forall k :: k in payload <==> exists j :: 0 <= j < n && Header[j] == k)
    && forall j :: 0 <= j < n ==> Header[j] in payload && payload[Header[j]] == FieldValue(partes, j)
  }

  /** Storing header position `i` extends the stored prefix by one: no earlier name is overwritten. */
  lemma StepKeepsPrefix(before: map<string, Value>, after: map<string, Value>, partes: seq<string>, i: nat)
    requires i < |Header| && HoldsPrefix(before, partes, i)
    requires after == before[Header[i] := FieldValue(partes, i)]
    ensures HoldsPrefix(after, partes, i + 1)
  {
    forall j | 0 <= j < i
      ensures after[Header[j]] == before[Header[j]]
    {
      DistinctNames(j, i);
    }
    forall k | k in after
      ensures exists j :: 0 <= j < i + 1 && Header[j] == k
    {
      if k != Header[i] {
        assert k in before;
      }
    }
  }

  /**
   * In an accepted line only the last field, `fase`, can be missing: every
   * other value is the converted part at its position.
   */
  lemma OnlyPhaseCanBeMissing(line: string, i: nat)
    requires Accepted(line) && i < |Header| - 1
    ensures i < |Parts(line)|
    ensures FieldValue(Parts(line), i) ==
      if NumericColumn(i) then Num(NumberOr0(Strip(Parts(line)[i]))) else Str(Strip(Parts(line)[i]))
  {
    var parts := Parts(line);
    assert |parts| >= MinParts;
  }

  /** Parts beyond the 24th are ignored: the payload depends only on the first 24 parts. */
  lemma ExtraPartsIgnored(parts: seq<string>, i: nat)
    requires i < |Header| <= |parts|
    ensures FieldValue(parts, i) == FieldValue(parts[..|Header|], i)
  {
  }

  /** A header name: non-empty, without commas or whitespace. */
  predicate PlainName(name: string) {
    |name| > 0 && ',' !in name && forall k :: 0 <= k < |name| ==> !IsSpace(name[k])
  }

  /** Every header name is plain. */
  lemma HeaderNamesPlain()
    ensures forall i :: 0 <= i < |Header| ==> PlainName(Header[i])
  {
  }

  /** Plain names joined by commas have no whitespace at either end. */
  lemma JoinedNamesTrimmed(names: seq<string>)
    requires |names| >= 1 && forall i :: 0 <= i < |names| ==> PlainName(names[i])
    ensures Strip(Join(names, ',')) == Join(names, ',')
  {
    var line := Join(names, ',');
    JoinEnds(names, ',');
    var last := names[|names| - 1];
    assert !IsSpace(last[|last| - 1]);
    assert !IsSpace(names[0][0]);
    StripTrimmed(line);
  }

  /** `"timestamp"` has no capital letters, so lower-casing keeps it. */
  lemma LowerTimestamp()
    ensures Lower("timestamp") == "timestamp"
  {
    var t := "timestamp";
    forall k | 0 <= k < |t|
      ensures LowerChar(t[k]) == t[k]
    {
      if k == 0 {} else if k == 1 {} else if k == 2 {} else if k == 3 {} else if k == 4 {}
      else if k == 5 {} else if k == 6 {} else if k == 7 {} else {}
    }
    assert Lower(t) == t;
  }

  /** The first part of the header line reads `timestamp` after stripping and lower-casing. */
  lemma TimestampName()
    ensures Lower(Strip("timestamp")) == "timestamp"
  {
    StripTrimmed("timestamp");
    LowerTimestamp();
  }

  /** A line made of at least 23 plain names joined by commas, the first being `timestamp`, is rejected. */
  lemma NamesLineRejected(names: seq<string>)
    requires |names| >= MinParts && names[0] == "timestamp"
    requires forall i :: 0 <= i < |names| ==> PlainName(names[i])
    ensures !Accepted(Join(names, ','))
  {
    JoinedNamesTrimmed(names);
    SplitJoin(names, ',');
    assert Parts(Join(names, ',')) == names;
    TimestampName();
  }

  /** The header line itself, if the flight computer sends it again, is rejected. */
  lemma HeaderLineRejected()
    ensures !Accepted(Join(Header, ','))
  {
    HeaderNamesPlain();
    NamesLineRejected(Header);
  }

  /** A line joined from header names starts with the first name's first letter and ends with the last name's last letter. */
  lemma {:induction false} JoinEnds(parts: seq<string>, sep: char)
    requires |parts| >= 1 && forall i :: 0 <= i < |parts| ==> |parts[i]| > 0
    ensures |Join(parts, sep)| > 0
    ensures Join(parts, sep)[0] == parts[0][0]
    ensures Join(parts, sep)[|Join(parts, sep)| - 1] == parts[|parts| - 1][|parts[|parts| - 1]| - 1]
  {
    if |parts| > 1 {
      JoinEnds(parts[1..], sep);
    }
  }

  /** A numeric field written as a whole number of digits reads back as that number. */
  lemma WholeNumberField(parts: seq<string>, i: nat, n: nat)
    requires i < |Header| && i < |parts| && NumericColumn(i) && parts[i] == NatToString(n)
    ensures FieldValue(parts, i) == Num(n as real)
  {
    DigitsHaveNoMarkers(NatToString(n));
    StripTrimmed(NatToString(n));
    ParseFloatNat(n);
  }
}
