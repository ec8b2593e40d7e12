/** A minimal stand-in for the sensors repository that the controller calls. Its source file
    is not part of this model; only the behaviour the controller and its tests rely on is kept:
    sensors live in id-indexed slots, the first created sensor gets id 1, a deleted sensor
    leaves its slot empty, and read, update and delete fail on an empty or missing slot. */
module Sensors {
  import opened Results

  datatype Sensor = Sensor(id: nat, name: string)

  /** What read, update and delete throw when the id has no sensor. */
  datatype SensorError = IdNotFound(id: nat)

  /** The sensors stored in `slots`, in id order. */
  function Listed(slots: seq<Option<string>>): (r: seq<Sensor>)
    ensures forall s :: s in r <==> s.id < |slots| && slots[s.id] == Some(s.name)
  {
    if |slots| == 0 then []
    else
      var last := |slots| - 1;
      Listed(slots[..last]) + (if slots[last].Some? then [Sensor(last, slots[last].value)] else [])
  }

  class SensorsRepository {
    /** Slot `i` holds the name of sensor `i`, or nothing. */
    var slots: seq<Option<string>>

    /** An empty store; slot 0 is never used, so ids start at 1. */
    constructor ()
      ensures slots == [None]
    {
      slots := [None];
    }

    /** True when a sensor with this id is stored. */
    predicate Has(id: nat)
      reads this
    {
      id < |slots| && slots[id].Some?
    }

    method List() returns (r: seq<Sensor>)
      ensures r == Listed(slots)
    {
      r := Listed(slots);
    }

    /** Stores a new sensor under the next id. */
    method Create(name: string) returns (s: Sensor)
      modifies this
      ensures s == Sensor(|old(slots)|, name)
      ensures slots == old(slots) + [Some(name)]
    {
      s := Sensor(|slots|, name);
      slots := slots + [Some(name)];
    }

    method Read(id: nat) returns (r: Result<Sensor, SensorError>)
      ensures Has(id) ==> r == Success(Sensor(id, slots[id].value))
      ensures !Has(id) ==> r == Failure(IdNotFound(id))
    {
      if Has(id) {
        return Success(Sensor(id, slots[id].value));
      }
      return Failure(IdNotFound(id));
    }

    /** Replaces the name of an existing sensor. */
    method Update(id: nat, name: string) returns (r: Result<Sensor, SensorError>)
      modifies this
      ensures old(Has(id)) ==> r == Success(Sensor(id, name)) && slots == old(slots)[id := Some(name)]
      ensures !old(Has(id)) ==> r == Failure(IdNotFound(id)) && slots == old(slots)
    {
      if Has(id) {
        slots := slots[id := Some(name)];
        return Success(Sensor(id, name));
      }
      return Failure(IdNotFound(id));
    }

    /** Empties the slot of an existing sensor. */
    method Delete(id: nat) returns (r: Result<(), SensorError>)
      modifies this
      ensures old(Has(id)) ==> r == Success(()) && slots == old(slots)[id := None]
      ensures !old(Has(id)) ==> r == Failure(IdNotFound(id)) && slots == old(slots)
    {
      if Has(id) {
        slots := slots[id := None];
        return Success(());
      }
      return Failure(IdNotFound(id));
    }
  }
}
