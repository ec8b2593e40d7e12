# Sensors service core in Dafny

This project models the two pieces of logic in a small sensors CRUD service:

- **The sensor-values repository** (`SensorValues`). It keeps an ordered in-memory collection of
  `{timestamp, sensor_id, values}` records. `create` appends `{ timestamp: now, ...data }`.
  `read`, `update` and `delete` find the first record with a given timestamp by linear search.
  They fail with a not-found error when there is none. `update` overwrites that position with
  `{ timestamp, ...data }` and `delete` splices it out. `list` returns the whole collection, or
  the records a filter accepts, in store order. The repository is a class whose `sensorValues`
  field is a `seq` that the mutating methods reassign. The searches and the filter are loops
  proved against the functions that specify them (`FirstIndex`, `Filter`).
- **The sensors controller** (`SensorsController`). Its handlers validate the path id
  (`z.coerce.number().nonnegative()`). `read` joins a sensor with the readings of its values:
  one `[timestamp, average]` pair per value of that sensor, in store order. `update` validates
  the body strictly (exactly `{name: <non-empty string>}`) and answers 400 before any write when
  it fails. `delete` answers 204. A handler ends in one of three ways. It finishes with the
  status and body it assigned (`Ok(Response(status, body))`). Or the id schema throws
  (`ValidationError`). Or a sensors-repository call throws because the id is missing
  (`NotFound(id)`). The code has no catch around these, so the model does not turn them into
  statuses. `ToResponse` and `ReadResponse` give the mapping the read tests expect (see Findings).

The controller also calls a sensors repository whose source is not part of this model.
`Sensors` is a minimal stand-in holding only what the controller and its tests rely on.
Sensors live in id-indexed slots and the first created sensor gets id 1. Read, update and
delete fail on an empty slot, and delete empties the slot.

Two modules replay the scenarios of the test files against the model
(`SensorValuesRepositoryTests`, `SensorsControllerTests`). The clock reading of each create is
a method parameter there.

Files: `results.dfy` (Option, Result), `sensor_values_repository.dfy`,
`sensors_repository.dfy` (the stand-in), `sensors_controller.dfy`,
`sensor_values_repository_test.dfy`, `sensors_controller_test.dfy`.

## Model

| member | source | states |
|---|---|---|
| `SensorValues.Stamp` | src/repositories/sensor_values_repository.ts:19-23 | `{ timestamp, ...data }`: sensor id and values come from `data`; the timestamp is `data`'s own when it carries one, else the given one |
| `SensorValues.StampPositive` | src/repositories/sensor_values_repository.ts:19-23 | with a positive clock reading (and any override positive), a created record's timestamp is positive |
| `SensorValues.Filter` | src/repositories/sensor_values_repository.ts:12-14 | the filtered list is no longer than the collection and holds only elements of it that the filter accepts |
| `SensorValues.FilterComplete` | src/repositories/sensor_values_repository.ts:12-14 | every element of the collection that the filter accepts is in the filtered list |
| `SensorValues.FilterAppend` | src/repositories/sensor_values_repository.ts:12-14 | filtering distributes over concatenation, so kept elements stay in their original relative order |
| `SensorValues.FilterNone` | src/repositories/sensor_values_repository.ts:12-14 | a filter that accepts no element of the collection returns nothing |
| `SensorValues.FilterAll` | src/repositories/sensor_values_repository.ts:11-16 | a filter accepting every element returns the whole collection, as `list()` without a filter does |
| `SensorValues.FirstIndex` | src/repositories/sensor_values_repository.ts:37 | `findIndex` by timestamp: -1 exactly when no record has the timestamp; otherwise a position holding it with no earlier one |
| `SensorValues.ReadAfterCreate` | src/repositories/sensor_values_repository.test.ts:54-57 | after appending a record whose timestamp no earlier record has, the search for that timestamp finds the appended record |
| `SensorValues.ReadAfterUpdate` | src/repositories/sensor_values_repository.ts:36-43 | overwriting the first match for `t` with a record that keeps `t` leaves that position the first match |
| `SensorValues.RemoveOne` | src/repositories/sensor_values_repository.ts:51 | splicing out position `i` drops the length by one, shifts later elements down by one in order, and removes exactly one occurrence of the removed record |
| `SensorValues.SensorValuesRepository.constructor` | src/repositories/sensor_values_repository.test.ts:7-9 | a fresh store holds no values |
| `SensorValues.SensorValuesRepository.List` | src/repositories/sensor_values_repository.ts:11-16 | without a filter, the whole collection; with one, exactly `Filter` of the collection; nothing changes |
| `SensorValues.SensorValuesRepository.FindIndex` | src/repositories/sensor_values_repository.ts:37 | the linear search returns `FirstIndex` of the collection for the timestamp |
| `SensorValues.SensorValuesRepository.Create` | src/repositories/sensor_values_repository.ts:18-26 | appends exactly `Stamp(now, data)` at the end and returns it; earlier elements unchanged |
| `SensorValues.SensorValuesRepository.Read` | src/repositories/sensor_values_repository.ts:28-34 | the first record with the timestamp, or `TimestampNotFound(t)` when none has it; the collection is unchanged |
| `SensorValues.SensorValuesRepository.Update` | src/repositories/sensor_values_repository.ts:36-44 | absent timestamp: failure and collection unchanged; present: only the first matching position becomes `Stamp(t, data)`, which is returned |
| `SensorValues.SensorValuesRepository.Delete` | src/repositories/sensor_values_repository.ts:46-52 | absent timestamp: failure and collection unchanged; present: exactly the first matching element is removed, the rest kept in order |
| `Sensors.Listed` | src/controllers/sensors_controller.ts:8 | a sensor is listed exactly when its slot holds its name |
| `Sensors.SensorsRepository.constructor` | src/controllers/sensors_controller.test.ts:10-12 | a cleared store holds no sensor, and slot 0 is never used, so the first id created is 1 (test lines 18 and 30) |
| `Sensors.SensorsRepository.List` | src/controllers/sensors_controller.ts:8 | returns exactly `Listed` of the slots, the stored sensors in id order; nothing changes |
| `Sensors.SensorsRepository.Create` | src/controllers/sensors_controller.test.ts:18 | a new sensor takes the next slot, so the first id is 1 |
| `Sensors.SensorsRepository.Read` | src/controllers/sensors_controller.ts:19 | the stored sensor, or `IdNotFound(id)` for an empty or missing slot |
| `Sensors.SensorsRepository.Update` | src/controllers/sensors_controller.ts:56 | renames an existing sensor and returns `{id, name}`; a missing id fails with nothing changed |
| `Sensors.SensorsRepository.Delete` | src/controllers/sensors_controller.ts:70 | empties the slot of an existing sensor; a missing id fails with nothing changed |
| `SensorsController.ParseId` | src/controllers/sensors_controller.ts:13-17 | an id is accepted exactly when it is a non-negative number or a string of decimal digits |
| `SensorsController.DigitsValue` | src/controllers/sensors_controller.ts:15 | the number a digit string coerces to; it is 0 exactly when every digit is a zero (the empty string included) |
| `SensorsController.Decimal` | src/controllers/sensors_controller.test.ts:62 | the rendering of an id is a non-empty digit string without leading zeros |
| `SensorsController.DecimalRoundTrip` | src/controllers/sensors_controller.ts:15 | coercing the decimal text of any id gives back that id |
| `SensorsController.UpdateName` | src/controllers/sensors_controller.ts:43-54 | a name is extracted exactly when the body equals `{name: n}` with `n` non-empty; a missing, empty or non-string name or any extra key is rejected |
| `SensorsController.Sum` | src/controllers/sensors_controller.ts:25 | the `reduce` sum from the initial 0: no numbers sum to 0, one number sums to itself |
| `SensorsController.AverageOf` | src/controllers/sensors_controller.ts:25 | NaN exactly for an empty list; otherwise a mean that times the length equals the `reduce` sum |
| `SensorsController.SumAppend` | src/controllers/sensors_controller.ts:25 | the sum of a concatenation is the sum of the parts |
| `SensorsController.SumBounds` | src/controllers/sensors_controller.ts:25 | the sum of `n` numbers within `[lo, hi]` lies within `[n*lo, n*hi]` |
| `SensorsController.MeanBounds` | src/controllers/sensors_controller.ts:25 | the average of a non-empty list lies between any bounds of its numbers |
| `SensorsController.ReadingOf` | src/controllers/sensors_controller.ts:24-27 | the pair of one value: its timestamp first, and an average that is NaN exactly when the value holds no numbers |
| `SensorsController.Readings` | src/controllers/sensors_controller.ts:24-27 | the `map`: one pair per value, at the same position and with that value's timestamp |
| `SensorsController.OfSensor` | src/controllers/sensors_controller.ts:21 | the filter accepts a value exactly when its `sensor_id` equals the id |
| `SensorsController.SensorReadings` | src/controllers/sensors_controller.ts:20-27 | the `values` field of a read: no longer than the store, and every pair in it comes from a stored value of that sensor |
| `SensorsController.SensorReadingsSnoc` | src/controllers/sensors_controller.ts:20-27 | appending a value adds its `[timestamp, average]` at the end when it belongs to the sensor, and nothing otherwise |
| `SensorsController.SensorReadingsMembers` | src/controllers/sensors_controller.ts:20-27 | a pair is in a sensor's readings exactly when a stored value of that sensor produces it |
| `SensorsController.SensorReadingsNone` | src/controllers/sensors_controller.ts:20-22 | a sensor without stored values reads back no readings |
| `SensorsController.SensorReadingsCount` | src/controllers/sensors_controller.ts:20-27 | the number of readings equals the number of stored values with that sensor id |
| `SensorsController.List` | src/controllers/sensors_controller.ts:7-10 | the body is exactly what the sensors repository lists (`Listed` of the slots, in id order); no status assigned; nothing changes |
| `SensorsController.Read` | src/controllers/sensors_controller.ts:12-33 | bad id: `ValidationError`; missing sensor: `NotFound(id)`; otherwise body `{id, name, values}` with the sensor's readings in store order; no state changes |
| `SensorsController.Update` | src/controllers/sensors_controller.ts:35-61 | bad id throws and bad body answers 400 with the fixed message, both with the store unchanged; missing sensor: `NotFound`; otherwise only the name changes and the body is `{id, name}` |
| `SensorsController.Delete` | src/controllers/sensors_controller.ts:63-73 | bad id or missing sensor leave the store unchanged; otherwise the slot is emptied and the status is 204; the values collection is outside its frame |
| `SensorsController.NotFoundMessage` | src/controllers/sensors_controller.test.ts:62 | the 404 message "Sensor with ID {id} not found."; the id it quotes coerces back to that id |
| `SensorsController.ToResponse` | src/controllers/sensors_controller.test.ts:47-62 | a validation failure maps to 400, a not-found failure to 404, a finished response passes through |
| `SensorsController.ReadResponse` | src/controllers/sensors_controller.test.ts:43-63 | corrected read: bad id gives 400 with the id message, missing sensor 404 with "Sensor with ID {id} not found.", otherwise the read body |
| `SensorValuesRepositoryTests.CreateKeepsData` | src/repositories/sensor_values_repository.test.ts:11-23 | a created record keeps sensor id and values and has a positive timestamp |
| `SensorValuesRepositoryTests.ListWithFilter` | src/repositories/sensor_values_repository.test.ts:25-46 | filtering on sensor 2 returns just its one record |
| `SensorValuesRepositoryTests.ReadByTimestamp` | src/repositories/sensor_values_repository.test.ts:48-58 | reading the created timestamp returns the created record |
| `SensorValuesRepositoryTests.UpdateByTimestamp` | src/repositories/sensor_values_repository.test.ts:60-74 | update keeps the timestamp and replaces the values |
| `SensorValuesRepositoryTests.DeleteByTimestamp` | src/repositories/sensor_values_repository.test.ts:76-87 | deleting the only record leaves `list()` empty |
| `SensorsControllerTests.ScenarioAverages` | src/controllers/sensors_controller.test.ts:22-27 | `[1, 2, 3]` averages to 2 and `[5, 4, 3]` to 4 |
| `SensorsControllerTests.ScenarioReadings` | src/controllers/sensors_controller.test.ts:36-39 | two stored records of sensor 1 read back as `[[123456789, 2], [123456790, 4]]` |
| `SensorsControllerTests.ReadIncludesValues` | src/controllers/sensors_controller.test.ts:14-41 | the read body is `{id: 1, name, values: [[123456789, 2], [123456790, 4]]}` |
| `SensorsControllerTests.ReadInvalidIdThrows` | src/controllers/sensors_controller.ts:13-17 | as written, reading id `"invalid"` throws a validation error |
| `SensorsControllerTests.ReadInvalidIdResponds` | src/controllers/sensors_controller.test.ts:43-52 | through the corrected read, id `"invalid"` gives 400 and the exact message |
| `SensorsControllerTests.ReadMissingThrows` | src/controllers/sensors_controller.ts:19 | as written, reading a missing sensor throws not-found |
| `SensorsControllerTests.ReadMissingResponds` | src/controllers/sensors_controller.test.ts:54-63 | through the corrected read, a missing sensor 1 gives 404 and "Sensor with ID 1 not found." |
| `SensorsControllerTests.UpdateRenames` | src/controllers/sensors_controller.test.ts:65-79 | a valid body gives `{id: 1, name: "Updated Name"}` |
| `SensorsControllerTests.UpdateRejectsExtraKey` | src/controllers/sensors_controller.test.ts:81-96 | an extra key gives 400 and the stored name stays "Initial Name" |
| `SensorsControllerTests.DeleteEmptiesSlot` | src/controllers/sensors_controller.test.ts:98-109 | delete answers 204 and slot 1 is empty |
| `SensorsControllerTests.DeleteKeepsValues` | src/controllers/sensors_controller.ts:63-73 | after deleting a sensor, its value is still listed (no cascade) |

## Left out

- HTTP plumbing: the request context becomes parameters and the assigned `status`/`body` become `Response`. `None` means the handler assigned nothing, so the framework default applies.
- Asynchrony: every operation is a plain synchronous method over in-memory state.
- The clock: `Date.now()` is the `now` parameter of `Create`. Two creates in the same millisecond collide on the timestamp; the model allows it but says nothing more about it.
- SensorsController.ParseId: accepts a subset of what JS `Number()` coercion accepts. It takes integer numbers and strings of decimal digits; the empty string becomes 0, as in JS. It rejects forms JS also accepts: surrounding whitespace, signs, exponents, fractions, hex literals, `"Infinity"`. Non-integer numeric ids are not representable.
- Floating point: numbers are exact reals. The sum and the mean are exact, with no rounding. An empty `values` list gives an explicit `NaN` instead of IEEE NaN.
- Number width: JS numbers are IEEE doubles, but the model's ids, timestamps and `sensor_id`s are unbounded integers. Integers above 2^53 that JS would round are kept exact. Fractional timestamps and sensor ids, which the code accepts in `data`, cannot be represented in `ValueData`.
- SensorsController.DigitsValue: returns the exact value of a digit string. JS `Number()` rounds values above 2^53 to the nearest double (`"9007199254740993"` becomes 9007199254740992), so for such ids the model and the code disagree.
- SensorsController.UpdateName: every JSON value other than a string is a single `NonString` case. Absent or non-object bodies are `NotAnObject`.
- SensorValues.SensorValuesRepository.List: without a filter the code returns the live array itself, so later writes show through that reference. The model returns the value of the collection at the time of the call.
- Keys of `data` other than `timestamp`, `sensor_id` and `values` are copied by the spread in the code but are not modelled.
- The values repository's error text (`Failed to find SensorValue with timestamp '…'`) is kept only as `TimestampNotFound(t)`.
- `src/repositories/sensors_repository.ts`, `src/database.ts` and `src/controllers/_controller.ts` are not part of this model. `Sensors` is a stand-in for what the controller relies on. It assumes a stored sensor is the record `{id, name}`. The store's `clear` (test setup only) is left out.
- `Decimal` matches JS `String(n)` only for ids below 10^21, where JS switches to exponent notation.

## Findings

| source | as written | input that shows it | evidently intended | confidence | as-written member | corrected member |
|---|---|---|---|---|---|---|
| src/controllers/sensors_controller.ts:13-17 | the id schema's `parse` is not caught, so a bad id rejects the handler and no status or body is assigned | path id `"invalid"` | status 400 with "Invalid sensor ID format. Please provide a valid non-negative number." (src/controllers/sensors_controller.test.ts:47-51) | high; not executed | SensorsControllerTests.ReadInvalidIdThrows | SensorsController.ReadResponse |
| src/controllers/sensors_controller.ts:19 | the sensors-repository read is not caught, so a missing sensor rejects the handler | path id `1` with an empty store | status 404 with "Sensor with ID 1 not found." (src/controllers/sensors_controller.test.ts:58-62) | high; not executed | SensorsControllerTests.ReadMissingThrows | SensorsController.ReadResponse |
