/** The sensor-values repository's test scenarios, replayed against the model. The clock
    reading of each create is a parameter. */
module SensorValuesRepositoryTests {
  import opened Results
  import opened SensorValues

  /** "should create": the record keeps the data and gets a positive timestamp. */
  method CreateKeepsData(now: int) returns (result: SensorValue)
    requires now > 0
    ensures result.sensorId == 1 && result.values == [1.0, 2.0, 3.0]
    ensures result.timestamp > 0
  {
    var repository := new SensorValuesRepository();
    var data := ValueData(None, 1, [1.0, 2.0, 3.0]);
    result := repository.Create(data, now);
    StampPositive(now, data);
  }

  /** "should be able to list with a filter": only the record of sensor 2 comes back. */
  method ListWithFilter(now1: int, now2: int) returns (list: seq<SensorValue>)
    ensures |list| == 1
    ensures list[0].sensorId == 2 && list[0].values == [3.0, 2.0, 1.0]
  {
    var repository := new SensorValuesRepository();
    var first := repository.Create(ValueData(None, 1, [1.0, 2.0, 3.0]), now1);
    var second := repository.Create(ValueData(None, 2, [3.0, 2.0, 1.0]), now2);
    var keep := (v: SensorValue) => v.sensorId == 2;
    list := repository.List(Some(keep));
    assert repository.sensorValues == [first] + [second];
    FilterAppend([first], [second], keep);
    assert [first][..0] == [] && [second][..0] == [];
  }

  /** "should read by timestamp": reading the created timestamp returns the created record. */
  method ReadByTimestamp(now: int) returns (created: SensorValue, result: Result<SensorValue, RepositoryError>)
    ensures result == Success(created)
  {
    var repository := new SensorValuesRepository();
    created := repository.Create(ValueData(None, 1, [1.0, 2.0, 3.0]), now);
    ReadAfterCreate([], created);
    result := repository.Read(created.timestamp);
  }

  /** "should update by timestamp": the timestamp is kept and the values are replaced. */
  method UpdateByTimestamp(now: int) returns (created: SensorValue, updated: Result<SensorValue, RepositoryError>)
    ensures updated.Success?
    ensures updated.value.timestamp == created.timestamp && updated.value.values == [4.0, 5.0, 6.0]
  {
    var repository := new SensorValuesRepository();
    created := repository.Create(ValueData(None, 1, [1.0, 2.0, 3.0]), now);
    ReadAfterCreate([], created);
    updated := repository.Update(created.timestamp, ValueData(None, 1, [4.0, 5.0, 6.0]));
  }

  /** "should delete by timestamp": deleting the only record leaves the list empty. */
  method DeleteByTimestamp(now: int) returns (list: seq<SensorValue>)
    ensures list == []
  {
    var repository := new SensorValuesRepository();
    var created := repository.Create(ValueData(None, 1, [1.0, 2.0, 3.0]), now);
    ReadAfterCreate([], created);
    var deleted := repository.Delete(created.timestamp);
    list := repository.List(None);
  }
}
