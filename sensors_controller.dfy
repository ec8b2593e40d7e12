/** The sensors controller: validates the path id and the update body, joins a sensor with
    the averages of its values, and calls the repositories. A handler either finishes with a
    response (status and body it assigned) or throws, which the model keeps as a distinct outcome. */
module SensorsController {
  import opened Results
  import opened SensorValues
  import opened Sensors

  // ---------------------------------------------------------------------------
  // Path id validation: `z.coerce.number().nonnegative()`

  /** The `id` path parameter as it arrives: a number or a string. */
  datatype Param = Num(n: int) | Text(s: string)

  predicate IsDigit(c: char) {
    '0' <= c <= '9'
  }

  predicate AllDigits(s: string) {
    forall i :: 0 <= i < |s| ==> IsDigit(s[i])
  }

  /** The value of a decimal digit string; the empty string coerces to 0. The value is 0
      exactly when every digit is a zero. */
  function DigitsValue(s: string): (n: nat)
    requires AllDigits(s)
    ensures n == 0 <==> forall i :: 0 <= i < |s| ==> s[i] == '0'
  {
    if |s| == 0 then 0
    else 10 * DigitsValue(s[..|s| - 1]) + (s[|s| - 1] as int - '0' as int)
  }

  /** The id the schema accepts: a non-negative number, or a string of decimal digits
      coerced to its value. Anything else fails validation. */
  function ParseId(p: Param): (id: Option<nat>)
    ensures id.Some? <==> (p.Num? && p.n >= 0) || (p.Text? && AllDigits(p.s))
  {
    match p
    case Num(n) => if n >= 0 then Some(n) else None
    case Text(s) => if AllDigits(s) then Some(DigitsValue(s)) else None
  }

  function DigitChar(d: nat): (c: char)
    requires d < 10
    ensures IsDigit(c)
  {
    ('0' as int + d) as char
  }

  /** `String(n)` for a non-negative integer: its decimal digits, without leading zeros. */
  function Decimal(n: nat): (s: string)
    ensures |s| >= 1 && AllDigits(s)
    ensures |s| > 1 ==> s[0] != '0'
  {
    if n < 10 then [DigitChar(n)] else Decimal(n / 10) + [DigitChar(n % 10)]
  }

  /** Printing an id and coercing the text back gives the id again. */
  lemma {:induction false} DecimalRoundTrip(n: nat)
    ensures DigitsValue(Decimal(n)) == n
    ensures ParseId(Text(Decimal(n))) == Some(n)
  {
    if n >= 10 {
      DecimalRoundTrip(n / 10);
      var s := Decimal(n);
      assert s[..|s| - 1] == Decimal(n / 10);
    }
  }

  // ---------------------------------------------------------------------------
  // Update body validation: `z.object({ name: z.string().min(1) }).strict()`

  /** A JSON field value: a string, or anything else. */
  datatype FieldValue = Str(s: string) | NonString

  /** The request body: a JSON object, or something that is not one (absent, array, scalar). */
  datatype RequestBody = NotAnObject | Object(fields: map<string, FieldValue>)

  /** The new name when the body is exactly `{ name: <non-empty string> }`. A missing or empty
      name, a non-string name and any extra key all fail. */
  function UpdateName(body: RequestBody): (name: Option<string>)
    ensures forall n :: name == Some(n) <==> body == Object(map["name" := Str(n)]) && |n| >= 1
  {
    if body.Object? && body.fields.Keys == {"name"} && body.fields["name"].Str? && |body.fields["name"].s| >= 1
    then
      assert body.fields == map["name" := body.fields["name"]];
      Some(body.fields["name"].s)
    else None
  }

  // ---------------------------------------------------------------------------
  // Averages: `values.reduce((sum, val) => sum + val, 0) / values.length`

  /** The average of one record's numbers; dividing by an empty length gives NaN. */
  datatype Average = Mean(value: real) | NaN

  /** The left-to-right sum computed by `reduce` from 0: no numbers sum to the initial 0,
      and a single number sums to itself. */
  function Sum(xs: seq<real>): (total: real)
    ensures |xs| == 0 ==> total == 0.0
    ensures |xs| == 1 ==> total == xs[0]
  {
    if |xs| == 0 then 0.0 else Sum(xs[..|xs| - 1]) + xs[|xs| - 1]
  }

  function AverageOf(xs: seq<real>): (a: Average)
    ensures a.NaN? <==> |xs| == 0
    ensures a.Mean? ==> a.value * (|xs| as real) == Sum(xs)
  {
    if |xs| == 0 then NaN else Mean(Sum(xs) / (|xs| as real))
  }

  lemma {:induction false} SumAppend(a: seq<real>, b: seq<real>)
    ensures Sum(a + b) == Sum(a) + Sum(b)
  {
    if |b| == 0 {
      assert a + b == a;
    } else {
      assert (a + b)[..|a + b| - 1] == a + b[..|b| - 1];
      SumAppend(a, b[..|b| - 1]);
    }
  }

  lemma {:induction false} SumBounds(xs: seq<real>, lo: real, hi: real)
    requires forall i :: 0 <= i < |xs| ==> lo <= xs[i] <= hi
    ensures lo * (|xs| as real) <= Sum(xs) <= hi * (|xs| as real)
  {
    if |xs| > 0 {
      SumBounds(xs[..|xs| - 1], lo, hi);
    }
  }

  /** The average of a non-empty record lies between any lower and upper bound of its
      numbers; in particular a record of equal numbers averages to that number. */
  lemma MeanBounds(xs: seq<real>, lo: real, hi: real)
    requires |xs| > 0
    requires forall i :: 0 <= i < |xs| ==> lo <= xs[i] <= hi
    ensures AverageOf(xs).Mean? && lo <= AverageOf(xs).value <= hi
  {
    SumBounds(xs, lo, hi);
    var n := |xs| as real;
    assert AverageOf(xs).value == Sum(xs) / n;
    assert lo == (lo * n) / n && hi == (hi * n) / n;
  }

  // ---------------------------------------------------------------------------
  // The readings joined into a sensor: `[timestamp, average]` per value of that sensor

  type Reading = (int, Average)

  /** The `[timestamp, average]` pair of one value; the average is NaN exactly when the
      value holds no numbers. */
  function ReadingOf(v: SensorValue): (r: Reading)
    ensures r.0 == v.timestamp
    ensures r.1.NaN? <==> |v.values| == 0
  {
    (v.timestamp, AverageOf(v.values))
  }

  /** `map` of the value-to-reading transform: one pair per value, at the same position. */
  function Readings(vs: seq<SensorValue>): (r: seq<Reading>)
    ensures |r| == |vs|
    ensures forall i :: 0 <= i < |vs| ==> r[i].0 == vs[i].timestamp
  {
    seq(|vs|, i requires 0 <= i < |vs| => ReadingOf(vs[i]))
  }

  /** The filter `value => value.sensor_id === id`. */
  function OfSensor(id: nat): (keep: SensorValue -> bool)
    ensures forall v :: keep(v) <==> v.sensorId == id
  {
    (v: SensorValue) => v.sensorId == id
  }

  /** The `values` field of a sensor read: the readings of that sensor's values, in store order. */
  function SensorReadings(s: seq<SensorValue>, id: nat): (r: seq<Reading>)
    ensures |r| <= |s|
    ensures forall p :: p in r ==> exists v :: v in s && v.sensorId == id && p == ReadingOf(v)
  {
    var kept := Filter(s, OfSensor(id));
    assert forall k :: 0 <= k < |kept| ==> kept[k] in kept;
    Readings(kept)
  }

  /** Appending a value adds its reading at the end when it belongs to the sensor, and
      changes nothing otherwise: one reading per matching value, in store order. */
  lemma SensorReadingsSnoc(s: seq<SensorValue>, v: SensorValue, id: nat)
    ensures SensorReadings(s + [v], id) ==
            SensorReadings(s, id) + (if v.sensorId == id then [ReadingOf(v)] else [])
  {
  }

  /** A reading is in a sensor's read exactly when some stored value of that sensor produces it. */
  lemma SensorReadingsMembers(s: seq<SensorValue>, id: nat, r: Reading)
    ensures r in SensorReadings(s, id) <==> exists v :: v in s && v.sensorId == id && r == ReadingOf(v)
  {
    var kept := Filter(s, OfSensor(id));
    if r in SensorReadings(s, id) {
      var i :| 0 <= i < |kept| && SensorReadings(s, id)[i] == r;
      assert kept[i] in kept;
    }
    if exists v :: v in s && v.sensorId == id && r == ReadingOf(v) {
      var v :| v in s && v.sensorId == id && r == ReadingOf(v);
      FilterComplete(s, OfSensor(id), v);
      var i :| 0 <= i < |kept| && kept[i] == v;
      assert SensorReadings(s, id)[i] == r;
    }
  }

  /** A sensor with no stored values reads back an empty `values` list. */
  lemma SensorReadingsNone(s: seq<SensorValue>, id: nat)
    requires forall v :: v in s ==> v.sensorId != id
    ensures SensorReadings(s, id) == []
  {
    FilterNone(s, OfSensor(id));
  }

  /** How many stored values belong to the sensor. */
  function CountFor(s: seq<SensorValue>, id: nat): nat {
    if |s| == 0 then 0 else (if s[0].sensorId == id then 1 else 0) + CountFor(s[1..], id)
  }

  lemma {:induction false} SensorReadingsCount(s: seq<SensorValue>, id: nat)
    ensures |SensorReadings(s, id)| == CountFor(s, id)
  {
    if |s| > 0 {
      SensorReadingsCount(s[1..], id);
      assert s == [s[0]] + s[1..];
      FilterAppend([s[0]], s[1..], OfSensor(id));
      assert [s[0]][..0] == [];
    }
  }

  // ---------------------------------------------------------------------------
  // Handlers

  /** What a handler assigns to the response body. */
  datatype Body =
    | SensorList(sensors: seq<Sensor>)
    | SensorWithReadings(id: nat, name: string, values: seq<Reading>)
    | SensorRecord(id: nat, name: string)
    | ErrorMessage(error: string)

  /** The status and body a handler assigned; `None` where it assigned nothing. */
  datatype Response = Response(status: Option<nat>, body: Option<Body>)

  /** How a handler ends: with a response, or by throwing a validation or not-found error. */
  datatype Outcome = Ok(response: Response) | ValidationError | NotFound(id: nat)

  const InvalidBodyMessage := "Invalid request body: unrecognized key or invalid data"

  /** `list`: the stored sensors as the body. */
  method List(sensors: SensorsRepository) returns (out: Outcome)
    ensures out.Ok? && out.response.status.None?
    ensures out.response.body.Some? && out.response.body.value.SensorList?
    ensures out.response.body.value.sensors == Listed(sensors.slots)
    ensures forall s :: s in out.response.body.value.sensors <==> sensors.Has(s.id) && sensors.slots[s.id] == Some(s.name)
  {
    var list := sensors.List();
    out := Ok(Response(None, Some(SensorList(list))));
  }

  /** `read`: the sensor merged with the readings of its values. */
  method Read(sensors: SensorsRepository, values: SensorValuesRepository, p: Param) returns (out: Outcome)
    ensures ParseId(p).None? ==> out == ValidationError
    ensures ParseId(p).Some? && !sensors.Has(ParseId(p).value) ==> out == NotFound(ParseId(p).value)
    ensures ParseId(p).Some? && sensors.Has(ParseId(p).value) ==>
      var id := ParseId(p).value;
      out == Ok(Response(None, Some(SensorWithReadings(id, sensors.slots[id].value, SensorReadings(values.sensorValues, id)))))
  {
    var parsed := ParseId(p);
    if parsed.None? {
      return ValidationError;
    }
    var id := parsed.value;
    var sensor := sensors.Read(id);
    if sensor.Failure? {
      return NotFound(id);
    }
    var matching := values.List(Some(OfSensor(id)));
    var transformed := Readings(matching);
    return Ok(Response(None, Some(SensorWithReadings(sensor.value.id, sensor.value.name, transformed))));
  }

  /** `update`: a bad id throws, a bad body answers 400 before any write, a good body renames. */
  method Update(sensors: SensorsRepository, p: Param, body: RequestBody) returns (out: Outcome)
    modifies sensors
    ensures ParseId(p).None? ==> out == ValidationError && sensors.slots == old(sensors.slots)
    ensures ParseId(p).Some? && UpdateName(body).None? ==>
      out == Ok(Response(Some(400), Some(ErrorMessage(InvalidBodyMessage)))) &&
      sensors.slots == old(sensors.slots)
    ensures ParseId(p).Some? && UpdateName(body).Some? && !old(sensors.Has(ParseId(p).value)) ==>
      out == NotFound(ParseId(p).value) && sensors.slots == old(sensors.slots)
    ensures ParseId(p).Some? && UpdateName(body).Some? && old(sensors.Has(ParseId(p).value)) ==>
      var id, name := ParseId(p).value, UpdateName(body).value;
      out == Ok(Response(None, Some(SensorRecord(id, name)))) &&
      sensors.slots == old(sensors.slots)[id := Some(name)]
  {
    var parsed := ParseId(p);
    if parsed.None? {
      return ValidationError;
    }
    var id := parsed.value;
    var name := UpdateName(body);
    if name.None? {
      return Ok(Response(Some(400), Some(ErrorMessage(InvalidBodyMessage))));
    }
    var sensor := sensors.Update(id, name.value);
    if sensor.Failure? {
      return NotFound(id);
    }
    return Ok(Response(None, Some(SensorRecord(sensor.value.id, sensor.value.name))));
  }

  /** `delete`: removes the sensor and answers 204; its values are not touched. */
  method Delete(sensors: SensorsRepository, p: Param) returns (out: Outcome)
    modifies sensors
    ensures ParseId(p).None? ==> out == ValidationError && sensors.slots == old(sensors.slots)
    ensures ParseId(p).Some? && !old(sensors.Has(ParseId(p).value)) ==>
      out == NotFound(ParseId(p).value) && sensors.slots == old(sensors.slots)
    ensures ParseId(p).Some? && old(sensors.Has(ParseId(p).value)) ==>
      out == Ok(Response(Some(204), None)) &&
      sensors.slots == old(sensors.slots)[ParseId(p).value := None] &&
      !sensors.Has(ParseId(p).value)
  {
    var parsed := ParseId(p);
    if parsed.None? {
      return ValidationError;
    }
    var id := parsed.value;
    var deleted := sensors.Delete(id);
    if deleted.Failure? {
      return NotFound(id);
    }
    return Ok(Response(Some(204), None));
  }

  // ---------------------------------------------------------------------------
  // The error-to-status boundary the read tests expect

  const InvalidIdMessage := "Invalid sensor ID format. Please provide a valid non-negative number."

  /** The 404 message; the id it quotes reads back as that id. */
  function NotFoundMessage(id: nat): (m: string)
    ensures |m| > 26
    ensures ParseId(Text(m[15..|m| - 11])) == Some(id)
  {
    var m := "Sensor with ID " + Decimal(id) + " not found.";
    assert m[15..|m| - 11] == Decimal(id);
    DecimalRoundTrip(id);
    m
  }

  /** Maps a thrown validation error to 400 and a thrown not-found error to 404, each
      with the message the tests expect; a finished response passes through. */
  function ToResponse(out: Outcome): (r: Response)
    ensures out.Ok? ==> r == out.response
    ensures out.ValidationError? ==> r.status == Some(400)
    ensures out.NotFound? ==> r.status == Some(404)
  {
    match out
    case Ok(response) => response
    case ValidationError => Response(Some(400), Some(ErrorMessage(InvalidIdMessage)))
    case NotFound(id) => Response(Some(404), Some(ErrorMessage(NotFoundMessage(id))))
  }

  /** `read` behind that boundary: every request ends in a response. */
  method ReadResponse(sensors: SensorsRepository, values: SensorValuesRepository, p: Param) returns (r: Response)
    ensures ParseId(p).None? ==> r == Response(Some(400), Some(ErrorMessage(InvalidIdMessage)))
    ensures ParseId(p).Some? && !sensors.Has(ParseId(p).value) ==>
      r == Response(Some(404), Some(ErrorMessage(NotFoundMessage(ParseId(p).value))))
    ensures ParseId(p).Some? && sensors.Has(ParseId(p).value) ==>
      var id := ParseId(p).value;
      r == Response(None, Some(SensorWithReadings(id, sensors.slots[id].value, SensorReadings(values.sensorValues, id))))
  {
    var out := Read(sensors, values, p);
    r := ToResponse(out);
  }
}
