/** The sensors controller's test scenarios, replayed against the model. The read tests for a
    bad or missing id are replayed twice: against the handler as written, which throws, and
    against the corrected read, which answers with the status and message the tests expect. */
module SensorsControllerTests {
  import opened Results
  import opened SensorValues
  import opened Sensors
  import opened SensorsController

  /** The averages of the two records in the read scenario. */
  lemma ScenarioAverages()
    ensures AverageOf([1.0, 2.0, 3.0]) == Mean(2.0)
    ensures AverageOf([5.0, 4.0, 3.0]) == Mean(4.0)
  {
  }

  /** Two stored records of sensor 1 read back as their two pairs, in store order. */
  lemma ScenarioReadings(first: SensorValue, second: SensorValue)
    requires first == SensorValue(123456789, 1, [1.0, 2.0, 3.0])
    requires second == SensorValue(123456790, 1, [5.0, 4.0, 3.0])
    ensures SensorReadings([first, second], 1) == [(123456789, Mean(2.0)), (123456790, Mean(4.0))]
  {
    ScenarioAverages();
    SensorReadingsNone([], 1);
    SensorReadingsSnoc([], first, 1);
    SensorReadingsSnoc([first], second, 1);
    assert [] + [first] == [first] && [first] + [second] == [first, second];
  }

  /** "should read sensors including sensor values": the two records of sensor 1 become
      `[timestamp, average]` pairs in store order. */
  method ReadIncludesValues(now1: int, now2: int) returns (out: Outcome)
    ensures out == Ok(Response(None, Some(SensorWithReadings(1, "Sensor Name",
      [(123456789, Mean(2.0)), (123456790, Mean(4.0))]))))
  {
    var sensors := new SensorsRepository();
    var values := new SensorValuesRepository();
    var sensor := sensors.Create("Sensor Name");
    var first := values.Create(ValueData(Some(123456789), 1, [1.0, 2.0, 3.0]), now1);
    var second := values.Create(ValueData(Some(123456790), 1, [5.0, 4.0, 3.0]), now2);
    ScenarioReadings(first, second);
    assert values.sensorValues == [first, second];
    out := Read(sensors, values, Num(1));
  }

  /** "should not read sensors with invalid ID", as written: the id schema throws. */
  method ReadInvalidIdThrows() returns (out: Outcome)
    ensures out == ValidationError
  {
    var sensors := new SensorsRepository();
    var values := new SensorValuesRepository();
    assert !IsDigit("invalid"[0]);
    out := Read(sensors, values, Text("invalid"));
  }

  /** The same request through the corrected read: 400 with the exact message. */
  method ReadInvalidIdResponds() returns (r: Response)
    ensures r.status == Some(400)
    ensures r.body == Some(ErrorMessage("Invalid sensor ID format. Please provide a valid non-negative number."))
  {
    var sensors := new SensorsRepository();
    var values := new SensorValuesRepository();
    assert !IsDigit("invalid"[0]);
    r := ReadResponse(sensors, values, Text("invalid"));
  }

  /** "should return 404 if sensor not found", as written: the repository read throws. */
  method ReadMissingThrows() returns (out: Outcome)
    ensures out == NotFound(1)
  {
    var sensors := new SensorsRepository();
    var values := new SensorValuesRepository();
    out := Read(sensors, values, Num(1));
  }

  /** The same request through the corrected read: 404 with the exact message. */
  method ReadMissingResponds() returns (r: Response)
    ensures r.status == Some(404)
    ensures r.body == Some(ErrorMessage("Sensor with ID 1 not found."))
  {
    var sensors := new SensorsRepository();
    var values := new SensorValuesRepository();
    r := ReadResponse(sensors, values, Num(1));
    assert DigitChar(1) == '1' && Decimal(1) == "1";
    assert NotFoundMessage(1) == "Sensor with ID 1 not found.";
  }

  /** "should update sensors correctly": the body is the renamed sensor. */
  method UpdateRenames() returns (out: Outcome)
    ensures out == Ok(Response(None, Some(SensorRecord(1, "Updated Name"))))
  {
    var sensors := new SensorsRepository();
    var sensor := sensors.Create("Initial Name");
    out := Update(sensors, Num(1), Object(map["name" := Str("Updated Name")]));
  }

  /** "should not update sensors with invalid data": an extra key answers 400 and the stored
      name stays. */
  method UpdateRejectsExtraKey() returns (out: Outcome, stored: Option<string>)
    ensures out.Ok? && out.response.status == Some(400)
    ensures stored == Some("Initial Name")
  {
    var sensors := new SensorsRepository();
    var sensor := sensors.Create("Initial Name");
    var body := Object(map["name" := Str("Updated Name"), "invalid" := Str("Invalid")]);
    assert "invalid" in body.fields.Keys;
    out := Update(sensors, Num(1), body);
    stored := sensors.slots[1];
  }

  /** "should delete sensors correctly": 204 and an empty slot. */
  method DeleteEmptiesSlot() returns (out: Outcome, stored: Option<string>)
    ensures out == Ok(Response(Some(204), None))
    ensures stored == None
  {
    var sensors := new SensorsRepository();
    var sensor := sensors.Create("Sensor Name");
    out := Delete(sensors, Num(1));
    stored := sensors.slots[1];
  }

  /** Deleting a sensor leaves its values listable: there is no cascade. */
  method DeleteKeepsValues(now: int) returns (out: Outcome, orphans: seq<SensorValue>)
    ensures out == Ok(Response(Some(204), None))
    ensures orphans == [SensorValue(now, 1, [1.0, 2.0, 3.0])]
  {
    var sensors := new SensorsRepository();
    var values := new SensorValuesRepository();
    var sensor := sensors.Create("Sensor Name");
    var created := values.Create(ValueData(None, 1, [1.0, 2.0, 3.0]), now);
    out := Delete(sensors, Num(1));
    orphans := values.List(None);
  }
}
