/** The sensor-values repository: an ordered in-memory collection of
    `{timestamp, sensor_id, values}` records, keyed by timestamp and searched linearly. */
module SensorValues {
  import opened Results

  /** One stored record. The raw numbers are modelled as exact reals. */
  datatype SensorValue = SensorValue(timestamp: int, sensorId: int, values: seq<real>)

  /** The `data` argument of create and update. Its declared type leaves the timestamp out,
      but a `timestamp` key present at run time survives the object spread and wins. */
  datatype ValueData = ValueData(timestamp: Option<int>, sensorId: int, values: seq<real>)

  /** What read, update and delete throw when no record carries the timestamp. */
  datatype RepositoryError = TimestampNotFound(timestamp: int)

  /** The record `{ timestamp, ...data }`: sensor id and values come from `data`, and so does
      the timestamp when `data` carries one; otherwise it is `timestamp`. */
  function Stamp(timestamp: int, data: ValueData): (v: SensorValue)
    ensures v.sensorId == data.sensorId && v.values == data.values
    ensures v.timestamp == (if data.timestamp.Some? then data.timestamp.value else timestamp)
  {
    SensorValue(if data.timestamp.Some? then data.timestamp.value else timestamp, data.sensorId, data.values)
  }

  /** A created record has a positive timestamp whenever the clock reading and any
      timestamp override in the data are positive. */
  lemma StampPositive(now: int, data: ValueData)
    requires now > 0
    requires data.timestamp.Some? ==> data.timestamp.value > 0
    ensures Stamp(now, data).timestamp > 0
  {
  }

  /** `Array.prototype.filter`: the elements `keep` accepts, in their original order. */
  function Filter(s: seq<SensorValue>, keep: SensorValue -> bool): (r: seq<SensorValue>)
    ensures |r| <= |s|
    ensures forall v :: v in r ==> v in s && keep(v)
  {
    if |s| == 0 then []
    else Filter(s[..|s| - 1], keep) + (if keep(s[|s| - 1]) then [s[|s| - 1]] else [])
  }

  /** Every element that `keep` accepts is in the filtered sequence. */
  lemma {:induction false} FilterComplete(s: seq<SensorValue>, keep: SensorValue -> bool, v: SensorValue)
    requires v in s && keep(v)
    ensures v in Filter(s, keep)
  {
    if v != s[|s| - 1] {
      assert s == s[..|s| - 1] + [s[|s| - 1]];
      FilterComplete(s[..|s| - 1], keep, v);
    }
  }

  /** Filtering distributes over concatenation: the kept elements of `a` come before
      those of `b`, so the relative order of the collection is kept. */
  lemma {:induction false} FilterAppend(a: seq<SensorValue>, b: seq<SensorValue>, keep: SensorValue -> bool)
    ensures Filter(a + b, keep) == Filter(a, keep) + Filter(b, keep)
  {
    if |b| == 0 {
      assert a + b == a;
    } else {
      assert (a + b)[..|a + b| - 1] == a + b[..|b| - 1];
      FilterAppend(a, b[..|b| - 1], keep);
    }
  }

  /** A filter that accepts every element returns the whole collection. */
  lemma {:induction false} FilterAll(s: seq<SensorValue>, keep: SensorValue -> bool)
    requires forall v :: v in s ==> keep(v)
    ensures Filter(s, keep) == s
  {
    if |s| > 0 {
      assert s[..|s| - 1] + [s[|s| - 1]] == s;
      FilterAll(s[..|s| - 1], keep);
    }
  }

  /** A filter that accepts no element of the collection returns nothing. */
  lemma {:induction false} FilterNone(s: seq<SensorValue>, keep: SensorValue -> bool)
    requires forall v :: v in s ==> !keep(v)
    ensures Filter(s, keep) == []
  {
    if |s| > 0 {
      FilterNone(s[..|s| - 1], keep);
    }
  }

  /** `findIndex` on the timestamp: the first position holding `t`, or -1 when there is none. */
  function FirstIndex(s: seq<SensorValue>, t: int): (i: int)
    ensures -1 <= i < |s|
    ensures i == -1 <==> forall j :: 0 <= j < |s| ==> s[j].timestamp != t
    ensures 0 <= i ==> s[i].timestamp == t && forall j :: 0 <= j < i ==> s[j].timestamp != t
  {
    if |s| == 0 then -1
    else if s[0].timestamp == t then 0
    else
      var k := FirstIndex(s[1..], t);
      if k == -1 then -1 else k + 1
  }

  /** Reading back a freshly appended record finds it, provided no earlier record shares its timestamp. */
  lemma ReadAfterCreate(s: seq<SensorValue>, v: SensorValue)
    requires forall j :: 0 <= j < |s| ==> s[j].timestamp != v.timestamp
    ensures FirstIndex(s + [v], v.timestamp) == |s|
    ensures (s + [v])[|s|] == v
  {
  }

  /** Overwriting the first record for `t` with a record that keeps `t` leaves it the first match. */
  lemma ReadAfterUpdate(s: seq<SensorValue>, t: int, v: SensorValue)
    requires FirstIndex(s, t) >= 0 && v.timestamp == t
    ensures FirstIndex(s[FirstIndex(s, t) := v], t) == FirstIndex(s, t)
  {
    var i := FirstIndex(s, t);
    assert s[i := v][i].timestamp == t;
  }

  /** Removing position `i` drops the length by one, keeps the others in order and
      removes exactly one occurrence of the removed record. */
  lemma RemoveOne(s: seq<SensorValue>, i: nat)
    requires i < |s|
    ensures |s[..i] + s[i + 1..]| == |s| - 1
    ensures forall j :: 0 <= j < i ==> (s[..i] + s[i + 1..])[j] == s[j]
    ensures forall j :: i < j < |s| ==> (s[..i] + s[i + 1..])[j - 1] == s[j]
    ensures multiset(s[..i] + s[i + 1..]) + multiset{s[i]} == multiset(s)
  {
    assert s == s[..i] + [s[i]] + s[i + 1..];
  }

  class SensorValuesRepository {
    /** The store's `sensorValues` collection, in insertion order. */
    var sensorValues: seq<SensorValue>

    constructor ()
      ensures sensorValues == []
    {
      sensorValues := [];
    }

    /** `list(filter?)`: the whole collection, or the records the filter accepts, in store order. */
    method List(filter: Option<SensorValue -> bool>) returns (r: seq<SensorValue>)
      ensures filter.None? ==> r == sensorValues
      ensures filter.Some? ==> r == Filter(sensorValues, filter.value)
    {
      if filter.None? {
        return sensorValues;
      }
      var keep := filter.value;
      r := [];
      var i := 0;
      while i < |sensorValues|
        invariant 0 <= i <= |sensorValues|
        invariant r == Filter(sensorValues[..i], keep)
      {
        assert sensorValues[..i + 1][..i] == sensorValues[..i];
        if keep(sensorValues[i]) {
          r := r + [sensorValues[i]];
        }
        i := i + 1;
      }
      assert sensorValues[..i] == sensorValues;
    }

    /** The linear search shared by read, update and delete. */
    method FindIndex(t: int) returns (index: int)
      ensures index == FirstIndex(sensorValues, t)
    {
      var i := 0;
      while i < |sensorValues|
        invariant 0 <= i <= |sensorValues|
        invariant forall j :: 0 <= j < i ==> sensorValues[j].timestamp != t
      {
        if sensorValues[i].timestamp == t {
          return i;
        }
        i := i + 1;
      }
      return -1;
    }

    /** `create(data)`: appends `{ timestamp: now, ...data }` and returns it. */
    method Create(data: ValueData, now: int) returns (v: SensorValue)
      modifies this
      ensures v == Stamp(now, data)
      ensures sensorValues == old(sensorValues) + [v]
    {
      v := Stamp(now, data);
      sensorValues := sensorValues + [v];
    }

    /** `read(timestamp)`: the first record with that timestamp, or a not-found failure. */
    method Read(t: int) returns (r: Result<SensorValue, RepositoryError>)
      ensures FirstIndex(sensorValues, t) == -1 ==> r == Failure(TimestampNotFound(t))
      ensures FirstIndex(sensorValues, t) >= 0 ==> r == Success(sensorValues[FirstIndex(sensorValues, t)])
    {
      var index := FindIndex(t);
      if index == -1 {
        return Failure(TimestampNotFound(t));
      }
      return Success(sensorValues[index]);
    }

    /** `update(timestamp, data)`: overwrites the first matching record with `{ timestamp, ...data }`. */
    method Update(t: int, data: ValueData) returns (r: Result<SensorValue, RepositoryError>)
      modifies this
      ensures FirstIndex(old(sensorValues), t) == -1 ==>
        r == Failure(TimestampNotFound(t)) && sensorValues == old(sensorValues)
      ensures FirstIndex(old(sensorValues), t) >= 0 ==>
        r == Success(Stamp(t, data)) &&
        sensorValues == old(sensorValues)[FirstIndex(old(sensorValues), t) := Stamp(t, data)]
    {
      var index := FindIndex(t);
      if index == -1 {
        return Failure(TimestampNotFound(t));
      }
      var v := Stamp(t, data);
      sensorValues := sensorValues[index := v];
      return Success(v);
    }

    /** `delete(timestamp)`: splices out the first matching record. */
    method Delete(t: int) returns (r: Result<(), RepositoryError>)
      modifies this
      ensures FirstIndex(old(sensorValues), t) == -1 ==>
        r == Failure(TimestampNotFound(t)) && sensorValues == old(sensorValues)
      ensures FirstIndex(old(sensorValues), t) >= 0 ==>
        r == Success(()) &&
        sensorValues == old(sensorValues)[..FirstIndex(old(sensorValues), t)] +
                        old(sensorValues)[FirstIndex(old(sensorValues), t) + 1..]
    {
      var index := FindIndex(t);
      if index == -1 {
        return Failure(TimestampNotFound(t));
      }
      sensorValues := sensorValues[..index] + sensorValues[index + 1..];
      return Success(());
    }
  }
}
