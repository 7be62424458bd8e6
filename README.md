# Inkbird IAM-T1 notification parser, modelled in Dafny

This project models the protocol core of the Home Assistant integration for the
Inkbird IAM-T1 air-quality sensor (`inkbird_ble_custom/parser.py`). Two parts are
modelled:

- `InkbirdNotification` is the fixed table that maps the hexadecimal text of
  each configuration frame to a member of `ALARM_MODE`, `SAMPLING_INTERVAL` or
  `TEMPERATURE_UNIT`, together with its inverted dictionary.
  - `parse(cls, frame)` looks a received frame up in the table.
  - `create_response(value)` builds the frame that sets a value on the device.
- `InkbirdIamT1Device` is the object that holds the last known configuration
  and measurements of one sensor.
  - `update(notification)` dispatches on the opcode byte. It merges the
    temperature, humidity, CO2 and pressure of a sensor frame into `sensors`,
    or stores the parsed alarm mode, sampling interval or temperature unit.
  - `from_dict` restores a stored device.
  - `write_alarm_mode` and `write_sampling_interval` choose the command frame
    to send.

Layout:

- `hex.dfy` (`Hex`): bytes, `bytes.hex()` and `bytes.fromhex`, and their
  round trips.
- `settings.dfy` (`Settings`): the three enumerations and their integer values.
- `notification.dfy` (`Notification`): the frame table, `parse` and
  `create_response`.
- `device.dfy` (`Device`): the device fields, described in two ways.
  - `DeviceState` is the fields as a value. `Apply(s, f)` is the state after
    `update(f)`, as the code is written, including the temperature finding
    below. `ApplyIntended(s, f)` is the same update with that finding
    corrected. `FromDict` models `from_dict`.
  - The class `IamT1Device` has the same fields. Its `Update` method changes
    them in place and is proved to produce `Apply` of the old state.
- `device_properties.dfy` (`DeviceProperties`): what `update` and `from_dict`
  promise, proved over `Apply` and `FromDict`.
- `parser_examples.dfy` (`ParserExamples`): the frames and expected values of
  `inkbird_ble_custom/tests/test_parser.py`, proved over the model.

Representation choices:

- Python's floats in `sensors` are held exactly. A temperature or humidity with
  one decimal is `Tenths(n)`. CO2 and pressure are `Whole(n)`. An absent
  reading is `NoValue`.
- An enumeration constructor that raises `ValueError` is modelled as a `None`
  or `Err` result.
- A frame too short for `update` to index is excluded by the precondition
  `Readable`. In Python such a frame raises.

## Model

| member | source | states |
|---|---|---|
| Hex.FromHexOfHexOf | inkbird_ble_custom/parser.py:58-62 | `bytes.fromhex(b.hex()) == b` for every byte string, so the `hex()` text a frame is looked up by identifies the frame |
| Hex.HexOfFromHex | inkbird_ble_custom/parser.py:62 | every lower-case even-length hex text decodes, and the decoded bytes give back that very text under `hex()` |
| Hex.HexOfInjective | inkbird_ble_custom/parser.py:58 | two byte strings with the same `hex()` text are equal |
| Hex.HexOf | inkbird_ble_custom/parser.py:58 | `bytes.hex()` emits two hex digits per byte |
| Hex.HexOfIsLowerHex | inkbird_ble_custom/parser.py:58 | every digit `bytes.hex()` emits is lower-case, so only lower-case texts can match a table key |
| Hex.FromHex | inkbird_ble_custom/parser.py:62 | `bytes.fromhex(s)` succeeds exactly when `s` has an even number of characters and all of them are hex digits; it then gives one byte per pair of digits |
| Settings.AlarmModeOfValue | inkbird_ble_custom/parser.py:25-28 | `ALARM_MODE(c)` succeeds exactly for c in 1..3, and returns the member whose value is c |
| Settings.SamplingIntervalOfValue | inkbird_ble_custom/parser.py:30-34 | `SAMPLING_INTERVAL(c)` succeeds exactly for c in {1, 2, 5, 10}, and returns the member whose value is c |
| Settings.TemperatureUnitOfValue | inkbird_ble_custom/parser.py:36-38 | `TEMPERATURE_UNIT(c)` succeeds exactly for c in {1, 2}, and returns the member whose value is c |
| Settings.OfValueOfValue | inkbird_ble_custom/parser.py:25-38 | looking a member up by its own `.value` gives the member back, for all three enumerations |
| Notification.DictOf | inkbird_ble_custom/parser.py:42-55 | a dict display or comprehension holds exactly the keys of its entries, and a repeated key keeps its last value |
| Notification.EntriesDistinct | inkbird_ble_custom/parser.py:42-54 | the table has no repeated frame text and no repeated member, and every key is lower-case hex as `bytes.hex()` emits it |
| Notification.SwappedDictInverts | inkbird_ble_custom/parser.py:55 | when neither keys nor values repeat, `{v: k for k, v in d.items()}` is the inverse of `d`, in both directions |
| Notification.ReverseInvertsMapping | inkbird_ble_custom/parser.py:42-55 | `_value2notification` and `_mapping` are inverse dictionaries, in both directions |
| Notification.ReverseHasEverySetting | inkbird_ble_custom/parser.py:55-62 | every enumeration member has a frame in `_value2notification`, so `create_response` never raises `KeyError` for a member |
| Notification.EntryIndex | inkbird_ble_custom/parser.py:43-53 | each member of the three enumerations sits in some row of the table |
| Notification.Parse | inkbird_ble_custom/parser.py:57-59 | `parse(cls, frame)` returns only members of `cls` |
| Notification.CreateResponse | inkbird_ble_custom/parser.py:61-62 | the frame for `v` is the bytes whose hex text is the table's text for `v` |
| Notification.ParseCreateResponse | inkbird_ble_custom/parser.py:57-62 | parsing `create_response(v)` with `v`'s own class gives `v` back |
| Notification.ParseExact | inkbird_ble_custom/parser.py:57-62 | `parse(cls, frame)` yields `v` if and only if `v` is of class `cls` and `frame` equals `create_response(v)` byte for byte |
| Notification.ParseOtherKind | inkbird_ble_custom/parser.py:59 | a table frame parsed with another class gives None (the `isinstance` filter) |
| Notification.CreateResponseInjective | inkbird_ble_custom/parser.py:61-62 | distinct members have distinct command frames |
| Notification.CreateResponseShape | inkbird_ble_custom/parser.py:43-53 | every table frame starts `55 aa`, carries its class's opcode (0x04, 0x02, 0x05) and its own length (9, 11, 12) in bytes 2 and 3 |
| Notification.ParseListed | inkbird_ble_custom/parser.py:57-59 | a frame whose text is the table's text for `v` parses, with `v`'s class, to `v` |
| Notification.ParseUnlisted | inkbird_ble_custom/parser.py:58-59 | a frame whose text is not in the table parses to None with every class |
| Device.U16At | inkbird_ble_custom/parser.py:109-116 | the unsigned big-endian 16-bit value at an offset: below 65536, with the high byte first |
| Device.RawTemperature | inkbird_ble_custom/parser.py:98-101 | the temperature's magnitude is bytes 5-6 big-endian, and it is negated exactly when sign byte 4 is 1 |
| Device.FahrenheitToCelsiusTenths | inkbird_ble_custom/parser.py:102-107 | the Fahrenheit-to-Celsius result is within 4/9 of a tenth of the exact `(F - 32) * 5 / 9`, so it is that value rounded to one decimal |
| Device.FahrenheitZero | inkbird_ble_custom/parser.py:104-107 | a Fahrenheit reading rounds to 0.0 degrees Celsius only at exactly 32.0 F |
| Device.ParseTemperatureAsWritten | inkbird_ble_custom/parser.py:97-107 | as written, the reading is None exactly when the unit is unknown or the Celsius value is 0.0; otherwise it is that Celsius value in tenths |
| Device.ParseTemperature | inkbird_ble_custom/parser.py:97-107 | as intended, the reading is None exactly when the unit is unknown; otherwise it is the Celsius value in tenths, converted from Fahrenheit when that is the unit |
| Device.IamT1Device.constructor | inkbird_ble_custom/parser.py:65-76 | a new device holds exactly the field values given |
| Device.ParseHumidity | inkbird_ble_custom/parser.py:109-110 | the humidity is a count of tenths below 65536, with byte 7 as its high byte and byte 8 as its low byte |
| Device.ParseCo2 | inkbird_ble_custom/parser.py:112-113 | the CO2 value is a whole number below 65536, with byte 9 as its high byte and byte 10 as its low byte |
| Device.ParsePressure | inkbird_ble_custom/parser.py:115-116 | the pressure is a whole number below 65536, with byte 11 as its high byte and byte 12 as its low byte |
| Device.Reading | inkbird_ble_custom/parser.py:125-130 | the dictionary a sensor frame merges has exactly the four device keys; its temperature is missing exactly when the unit is unknown or the reading is 0.0 |
| Device.IntendedReading | inkbird_ble_custom/parser.py:125-130 | the intended dictionary's temperature is missing exactly when the unit is unknown; it equals `Reading` except at a reading of 0.0 |
| Device.Apply | inkbird_ble_custom/parser.py:96-148 | `update` never changes the manufacturer, software version, model or address, and never removes a reading; a frame without the preamble changes nothing |
| Device.ApplyIntended | inkbird_ble_custom/parser.py:107 | the corrected update differs from `Apply` exactly when a sensor frame reads 0.0, and then only in `sensors` |
| Device.IamT1Device.Update | inkbird_ble_custom/parser.py:96-148 | `update(notification)` leaves the device in the state `Apply` gives for the old state and the frame |
| Device.IamT1Device.WriteAlarmMode | inkbird_ble_custom/parser.py:88-90 | the frame sent parses back as exactly `mode`, has opcode 0x04, and once received sets the alarm mode to `mode` and nothing else |
| Device.IamT1Device.WriteSamplingInterval | inkbird_ble_custom/parser.py:92-94 | the frame sent parses back as exactly `interval`, has opcode 0x02, and once received sets the sampling interval to `interval` and nothing else |
| Device.ApplyCreateResponse | inkbird_ble_custom/parser.py:132-146 | every `create_response(v)` frame is readable and starts with the preamble and the opcode of `v`'s class; received by any device, it sets that class's field to `v` and changes nothing else |
| DeviceProperties.ApplyIgnored | inkbird_ble_custom/parser.py:118-148 | a frame without the `55 aa` preamble, a CO2-limits frame (0x03) and a frame with an unknown opcode leave the whole device unchanged |
| DeviceProperties.ApplyReport | inkbird_ble_custom/parser.py:132-146 | a report frame sets its class's field to `v` iff it is `create_response(v)`, to None iff `parse` gives None, and leaves every other field unchanged |
| DeviceProperties.ApplyReportSets | inkbird_ble_custom/parser.py:132-146 | a report frame stores the `parse` result for its class in that class's field and touches no other field |
| DeviceProperties.ApplySensorReading | inkbird_ble_custom/parser.py:97-130 | a sensor frame writes all four keys and changes no other field. Humidity is in tenths from bytes 7-8, CO2 from bytes 9-10 and pressure from bytes 11-12. The temperature is as `parse_temperature()` is written: None exactly when the unit is unknown or the reading is 0.0. Keys of any other class keep their values |
| DeviceProperties.ApplyIdempotent | inkbird_ble_custom/parser.py:96-148 | receiving the same frame twice leaves the state the first reception left |
| DeviceProperties.ReadingIgnoresFraming | inkbird_ble_custom/parser.py:97-116 | a sensor reading depends only on bytes 4 to 12 and the unit: the length byte and any trailing bytes are ignored |
| DeviceProperties.SensorFrame | inkbird_ble_custom/parser.py:97-116 | the encoder a sensor frame is built with: 13 bytes, the preamble, opcode 0x01 |
| DeviceProperties.ReadingOfSensorFrame | inkbird_ble_custom/parser.py:97-130 | decoding a sensor frame gives back the humidity, CO2 and pressure it was encoded from. The temperature comes back in Celsius, converted from Fahrenheit if needed. It is absent when the unit is unknown, and also at exactly 0.0 °C or 32.0 °F |
| DeviceProperties.TemperatureAsWrittenDropsOnlyZero | inkbird_ble_custom/parser.py:107 | the truthiness test as written and the intended `is not None` test differ only on a reading of exactly 0.0 |
| DeviceProperties.ZeroCelsiusDroppedAsWritten | inkbird_ble_custom/parser.py:107 | a sensor frame reporting 0.0 degrees Celsius, applied to a device, stores no temperature as written and 0.0 as intended |
| DeviceProperties.FreezingFahrenheitDroppedAsWritten | inkbird_ble_custom/parser.py:102-107 | a sensor frame reporting 32.0 F on a Fahrenheit device stores no temperature as written and 0.0 °C as intended |
| DeviceProperties.IntendedSensorReading | inkbird_ble_custom/parser.py:97-107 | the corrected update stores the intended temperature, missing exactly when the unit is unknown |
| DeviceProperties.FromDictStoredForm | inkbird_ble_custom/parser.py:78-83 | restoring the stored form (members replaced by their `.value`) of any state gives that state back |
| Device.AlarmModeOfCode | inkbird_ble_custom/parser.py:80 | a false stored code (None or 0) gives None; a code in 1..3 gives the member with that value; any other code is the `ValueError` for that code |
| Device.SamplingIntervalOfCode | inkbird_ble_custom/parser.py:81 | a false stored code gives None; a code in {1, 2, 5, 10} gives the member with that value; any other code is the `ValueError` for that code |
| Device.TemperatureUnitOfCode | inkbird_ble_custom/parser.py:82 | a false stored code gives None; a code in {1, 2} gives the member with that value; any other code is the `ValueError` for that code |
| Device.FromDict | inkbird_ble_custom/parser.py:78-83 | `from_dict` copies the four text fields and `sensors`; codes are converted in the order alarm mode, sampling interval, temperature unit, so a later code's error can only arise once the earlier codes are valid |
| DeviceProperties.FromDictOk | inkbird_ble_custom/parser.py:78-83 | `from_dict` succeeds iff each stored code is None, 0 or a known value; a false code becomes None, a known code becomes its member, and the other fields are copied |
| ParserExamples.ListedText | inkbird_ble_custom/tests/test_parser.py:33-38 | decoding a table text with `fromhex` and applying it to a new device sets the field of its member's class to that member |
| ParserExamples.UnlistedText | inkbird_ble_custom/tests/test_parser.py:33-38 | a text with a class's head that differs at one digit from every table text of its length leaves a new device unchanged |
| ParserExamples.AlarmOffExample | inkbird_ble_custom/tests/test_parser.py:28 | `55aa0409000000000c` sets the alarm mode to OFF |
| ParserExamples.AlarmOnceExample | inkbird_ble_custom/tests/test_parser.py:29 | `55aa0409010000000d` sets the alarm mode to ONCE |
| ParserExamples.AlarmEveryTimeExample | inkbird_ble_custom/tests/test_parser.py:30 | `55aa0409010100000e` sets the alarm mode to EVERY_TIME |
| ParserExamples.AlarmUnlistedExample | inkbird_ble_custom/tests/test_parser.py:31 | `55aa04090000000000` leaves the alarm mode None |
| ParserExamples.IntervalOneExample | inkbird_ble_custom/tests/test_parser.py:41 | `55aa020b0000000001a4b1` sets the sampling interval to ONE |
| ParserExamples.IntervalTwoExample | inkbird_ble_custom/tests/test_parser.py:42 | `55aa020b0100000001a4b2` sets the sampling interval to TWO |
| ParserExamples.IntervalFiveExample | inkbird_ble_custom/tests/test_parser.py:43 | `55aa020b0200000001a4b3` sets the sampling interval to FIVE |
| ParserExamples.IntervalTenExample | inkbird_ble_custom/tests/test_parser.py:44 | `55aa020b0400000001a4b5` sets the sampling interval to TEN |
| ParserExamples.IntervalUnlistedExample | inkbird_ble_custom/tests/test_parser.py:45 | `55aa020b00000000000000` leaves the sampling interval None |
| ParserExamples.UnitCelsiusExample | inkbird_ble_custom/tests/test_parser.py:55 | `55aa050c0000000000000010` sets the temperature unit to CELSIUS |
| ParserExamples.UnitFahrenheitExample | inkbird_ble_custom/tests/test_parser.py:56 | `55aa050c0000000000000111` sets the temperature unit to FAHRENHEIT |
| ParserExamples.UnitUnlistedExample | inkbird_ble_custom/tests/test_parser.py:57 | `55aa050c0000000000000000` leaves the temperature unit None |
| ParserExamples.CelsiusReadingExample | inkbird_ble_custom/tests/test_parser.py:5-14 | with the unit Celsius, the sensor frame reads 25.9 degrees, 51.0 %, 640 ppm and 1003 hPa |
| ParserExamples.FahrenheitReadingExample | inkbird_ble_custom/tests/test_parser.py:16-25 | with the unit Fahrenheit, 79.8 F is stored as 26.6 degrees Celsius, with 63.0 %, 1514 ppm and 1009 hPa |
| ParserExamples.ReadingsOnDevice | inkbird_ble_custom/parser.py:122-146 | on a device object, the Celsius test frame followed by the Fahrenheit unit command leaves the unit Fahrenheit and the last reading (25.9 degrees, 51.0 %) in place |

## Left out

- Floating point: temperatures and humidity are exact counts of tenths. The
  Home Assistant `TemperatureConverter` is taken to compute `(F - 32) / 1.8`
  exactly. Rounding goes to the nearest tenth; exact ties cannot occur. A
  binary-float result that lands just beside a rounding boundary is not
  modelled.
- Device.FahrenheitToCelsiusTenths: the converter's body lives in Home
  Assistant. `homeassistant.util.unit_conversion` is not part of this model.
  Only the formula above is assumed.
- Frames too short to index: `update` raises `IndexError` or `struct.error` on
  them (a preamble without an opcode byte, a sensor frame under 13 bytes). The
  model excludes them with the precondition `Readable` rather than modelling
  the exception.
- `bytes.fromhex` ignores whitespace between digit pairs. `Hex.FromHex` does not
  accept whitespace. Every text in the table and in the examples has none.
- `name()` (`human_readable_name`) is not modelled. It formats a display name
  and says nothing about the protocol.
- `write_alarm_mode` / `write_sampling_interval`: only the frame chosen is
  modelled. The BLE write (`write_gatt_char`) and its awaiting are I/O.
- Logging (`_LOGGER`) has no effect on state and is left out.
- Outside the core and not modelled: `InkbirdIamT1DeviceData`,
  `DeviceInfoChars` and the GATT reads in `parser.py`, the coordinator, the
  config flow and the sensor/select platforms.
- `sensors` keys of other `SensorDeviceClass` members are held as
  `Other(name)`, named by a string rather than by the enumeration.
- `from_dict`: an unknown keyword raises `TypeError` in
  `InkbirdIamT1Device(**data)`. That case is not modelled; `StoredDevice` has
  exactly the dataclass's fields. A stored entry that already holds an
  enumeration member, or a non-integer value, is not modelled either. Codes are
  integers or None.
- The sensor examples build their frames as byte literals. They do not go
  through `fromhex`, because evaluating a 32-digit text exceeds what the
  verifier unfolds cheaply. The literal bytes are the tests' hex texts.

## Findings

| source | as written | input that shows it | evidently intended | confidence | as-written member | corrected member |
|---|---|---|---|---|---|---|
| inkbird_ble_custom/parser.py:107 | `round(temperature, 1) if temperature else None` tests the float's truthiness. A reading of exactly 0.0 degrees Celsius, or 32.0 F converted to Celsius, is stored as None, as if no unit were known | a sensor frame with unit Celsius and bytes 4-6 = `00 00 00` (`DeviceProperties.SensorFrame(0, 500, 400, 1000)`) | test `temperature is not None`, so that 0.0 is stored as 0.0 | not executed | Device.Apply, which `Device.IamT1Device.Update` implements, built on Device.ParseTemperatureAsWritten (counterexamples DeviceProperties.ZeroCelsiusDroppedAsWritten and DeviceProperties.FreezingFahrenheitDroppedAsWritten) | Device.ApplyIntended, built on Device.ParseTemperature (DeviceProperties.IntendedSensorReading) |
