/** `InkbirdIamT1Device`: the last known configuration and measurements of
    one sensor, and how a notification frame updates them in place. */
module Device {
  import opened Hex
  import opened Settings
  import opened Notification

  /** A `SensorDeviceClass` key of `sensors`: the four the device writes,
      or any other class a caller put there. */
  datatype SensorClass = Temperature | Humidity | Co2 | AtmosphericPressure | Other(name: string)

  /** A value stored in `sensors`: None, a number with one decimal held
      exactly as an integer count of tenths, or an integer. */
  datatype Measurement = NoValue | Tenths(tenths: int) | Whole(value: int)

  /** The four keys every sensor reading writes. */
  const AllSensorClasses: set<SensorClass> := {Temperature, Humidity, Co2, AtmosphericPressure}

  /** The fields of an `InkbirdIamT1Device`, as a value. */
  datatype DeviceState = DeviceState(
    manufacturer: string,
    swVersion: string,
    model: string,
    address: string,
    alarmMode: Option<AlarmMode>,
    samplingInterval: Option<SamplingInterval>,
    temperatureUnit: Option<TemperatureUnit>,
    sensors: map<SensorClass, Measurement>)

  /** `InkbirdIamT1Device()`: every field at its default. */
  const Fresh: DeviceState := DeviceState("", "", "", "", None, None, None, map[])

  // ---------------------------------------------------------------------
  // Frames

  /** `notification.startswith(b"\x55\xaa")`. */
  predicate HasPreamble(f: seq<byte>) {
    |f| >= 2 && f[0] == 0x55 && f[1] == 0xaa
  }

  /** The frames `update` reads without raising: a frame with the preamble
      has an opcode byte, and a sensor frame (opcode 0x01) reaches offset 12. */
  predicate Readable(f: seq<byte>) {
    HasPreamble(f) ==> |f| >= 3 && (f[2] == 0x01 ==> |f| >= 13)
  }

  /** `struct.unpack_from('>H', f, offset)[0]`: the unsigned big-endian
      16-bit number in bytes `offset` and `offset + 1`. */
  function U16At(f: seq<byte>, offset: nat): (n: nat)
    requires offset + 2 <= |f|
    ensures n < 0x1_0000
    ensures n / 256 == f[offset] && n % 256 == f[offset + 1]
  {
    (f[offset] as int) * 256 + (f[offset + 1] as int)
  }

  /** The temperature as the device reports it, in tenths of a degree of its
      configured unit: the magnitude at offsets 5-6, negative exactly when
      the sign byte at offset 4 is 1. */
  function RawTemperature(f: seq<byte>): (t: int)
    requires |f| >= 7
    ensures -0x1_0000 < t < 0x1_0000
    ensures f[4] != 1 ==> t == U16At(f, 5)
    ensures f[4] == 1 ==> t == -(U16At(f, 5) as int)
  {
    var magnitude: int := U16At(f, 5);
    if f[4] == 1 then -magnitude else magnitude
  }

  /** Degrees Fahrenheit to degrees Celsius, both in tenths, rounded to the
      nearest tenth: the exact value is `(t - 320) * 5 / 9` tenths, and the
      result is never more than 4/9 of a tenth away from it (there are no
      ties, so the rounding direction never matters). */
  function FahrenheitToCelsiusTenths(t: int): (c: int)
    ensures -4 <= 9 * c - 5 * (t - 320) <= 4
  {
    (10 * (t - 320) + 9) / 18
  }

  /** The nearest tenth is zero only for exactly 32.0 degrees Fahrenheit. */
  lemma FahrenheitZero(t: int)
    ensures FahrenheitToCelsiusTenths(t) == 0 <==> t == 320
  {
  }

  /** The temperature in tenths of a degree Celsius, before the final
      truthiness test of `parse_temperature`: None when no unit is known. */
  function CelsiusTenths(f: seq<byte>, unit: Option<TemperatureUnit>): Option<int>
    requires |f| >= 7
  {
    match unit
    case None => None
    case Some(Celsius) => Some(RawTemperature(f))
    case Some(Fahrenheit) => Some(FahrenheitToCelsiusTenths(RawTemperature(f)))
  }

  /** `parse_temperature()` as the source writes it: `round(t, 1) if t else
      None` also discards a temperature of exactly zero. */
  function ParseTemperatureAsWritten(f: seq<byte>, unit: Option<TemperatureUnit>): (m: Measurement)
    requires |f| >= 7
    ensures m == NoValue <==> unit == None || CelsiusTenths(f, unit) == Some(0)
    ensures m != NoValue ==> m.Tenths? && Some(m.tenths) == CelsiusTenths(f, unit)
  {
    match unit
    case None => NoValue
    case Some(Celsius) =>
      var t := RawTemperature(f);
      if t == 0 then NoValue else Tenths(t)
    case Some(Fahrenheit) =>
      var t := RawTemperature(f);
      FahrenheitZero(t);
      if t == 320 then NoValue else Tenths(FahrenheitToCelsiusTenths(t))
  }

  /** `parse_temperature()` as intended: no value exactly when the unit is
      unknown, otherwise the reading in tenths of a degree Celsius. */
  function ParseTemperature(f: seq<byte>, unit: Option<TemperatureUnit>): (m: Measurement)
    requires |f| >= 7
    ensures m == NoValue <==> unit == None
    ensures m != NoValue ==> m.Tenths? && Some(m.tenths) == CelsiusTenths(f, unit)
  {
    match CelsiusTenths(f, unit)
    case None => NoValue
    case Some(t) => Tenths(t)
  }

  /** `parse_humidity()`: the big-endian value at offset 7, in tenths of a percent. */
  function ParseHumidity(f: seq<byte>): (m: Measurement)
    requires |f| >= 9
    ensures m.Tenths? && 0 <= m.tenths < 0x1_0000
    ensures m.tenths / 256 == f[7] && m.tenths % 256 == f[8]
  {
    Tenths(U16At(f, 7))
  }

  /** `parse_co2()`: the big-endian value at offset 9, in ppm. */
  function ParseCo2(f: seq<byte>): (m: Measurement)
    requires |f| >= 11
    ensures m.Whole? && 0 <= m.value < 0x1_0000
    ensures m.value / 256 == f[9] && m.value % 256 == f[10]
  {
    Whole(U16At(f, 9))
  }

  /** `parse_pressure()`: the big-endian value at offset 11, in hPa. */
  function ParsePressure(f: seq<byte>): (m: Measurement)
    requires |f| >= 13
    ensures m.Whole? && 0 <= m.value < 0x1_0000
    ensures m.value / 256 == f[11] && m.value % 256 == f[12]
  {
    Whole(U16At(f, 11))
  }

  /** The dictionary a sensor frame merges into `sensors`, with the
      temperature as `parse_temperature()` is written: exactly the four
      device classes, a missing temperature only for an unknown unit or a
      reading of exactly 0.0. */
  function Reading(f: seq<byte>, unit: Option<TemperatureUnit>): (r: map<SensorClass, Measurement>)
    requires |f| >= 13
    ensures r.Keys == AllSensorClasses
    ensures r[Temperature] == NoValue <==> unit == None || CelsiusTenths(f, unit) == Some(0)
    ensures r[Humidity].Tenths? && r[Co2].Whole? && r[AtmosphericPressure].Whole?
  {
    map[Temperature := ParseTemperatureAsWritten(f, unit),
        Humidity := ParseHumidity(f),
        Co2 := ParseCo2(f),
        AtmosphericPressure := ParsePressure(f)]
  }

  /** The dictionary a sensor frame would merge with the intended
      temperature: it differs from `Reading` only at a reading of 0.0, where
      it holds 0.0 instead of nothing. */
  function IntendedReading(f: seq<byte>, unit: Option<TemperatureUnit>): (r: map<SensorClass, Measurement>)
    requires |f| >= 13
    ensures r.Keys == AllSensorClasses
    ensures r[Temperature] == NoValue <==> unit == None
    ensures r == Reading(f, unit) <==> CelsiusTenths(f, unit) != Some(0)
  {
    var r := Reading(f, unit)[Temperature := ParseTemperature(f, unit)];
    assert r[Temperature] == ParseTemperature(f, unit);
    r
  }

  /** The member of `ALARM_MODE` a parse result holds, if any. */
  function AlarmModeIn(o: Option<Setting>): Option<AlarmMode> {
    match o
    case Some(Alarm(m)) => Some(m)
    case _ => None
  }

  /** The member of `SAMPLING_INTERVAL` a parse result holds, if any. */
  function SamplingIntervalIn(o: Option<Setting>): Option<SamplingInterval> {
    match o
    case Some(Interval(i)) => Some(i)
    case _ => None
  }

  /** The member of `TEMPERATURE_UNIT` a parse result holds, if any. */
  function TemperatureUnitIn(o: Option<Setting>): Option<TemperatureUnit> {
    match o
    case Some(Unit(u)) => Some(u)
    case _ => None
  }

  /** The state after `update(f)`, as a function of the state before: a
      frame never changes the identity fields and never removes a reading,
      and a frame without the preamble changes nothing. */
  function Apply(s: DeviceState, f: seq<byte>): (t: DeviceState)
    requires Readable(f)
    ensures !HasPreamble(f) ==> t == s
    ensures t.manufacturer == s.manufacturer && t.swVersion == s.swVersion
    ensures t.model == s.model && t.address == s.address
    ensures s.sensors.Keys <= t.sensors.Keys
  {
    if !HasPreamble(f) then s
    else match f[2]
      case 0x01 => s.(sensors := s.sensors + Reading(f, s.temperatureUnit))
      case 0x02 => s.(samplingInterval := SamplingIntervalIn(Parse(SamplingIntervalKind, f)))
      case 0x03 => s
      case 0x04 => s.(alarmMode := AlarmModeIn(Parse(AlarmModeKind, f)))
      case 0x05 => s.(temperatureUnit := TemperatureUnitIn(Parse(TemperatureUnitKind, f)))
      case _ => s
  }

  /** The state `update(f)` would leave with the intended temperature test:
      it differs from `Apply` only when a sensor frame reads exactly 0.0,
      and then only in the temperature entry. */
  function ApplyIntended(s: DeviceState, f: seq<byte>): (t: DeviceState)
    requires Readable(f)
    ensures t.(sensors := Apply(s, f).sensors) == Apply(s, f)
    ensures t != Apply(s, f) <==>
      HasPreamble(f) && f[2] == 0x01 && CelsiusTenths(f, s.temperatureUnit) == Some(0)
  {
    if HasPreamble(f) && f[2] == 0x01 then
      var t := s.(sensors := s.sensors + IntendedReading(f, s.temperatureUnit));
      assert t.sensors[Temperature] == ParseTemperature(f, s.temperatureUnit);
      assert Apply(s, f).sensors[Temperature] == ParseTemperatureAsWritten(f, s.temperatureUnit);
      t
    else Apply(s, f)
  }

  // ---------------------------------------------------------------------
  // The device object

  class IamT1Device {
    var manufacturer: string
    var swVersion: string
    var model: string
    var address: string
    var alarmMode: Option<AlarmMode>
    var samplingInterval: Option<SamplingInterval>
    var temperatureUnit: Option<TemperatureUnit>
    var sensors: map<SensorClass, Measurement>

    /** All fields, as a value. */
    function State(): DeviceState
      reads this
    {
      DeviceState(manufacturer, swVersion, model, address,
                  alarmMode, samplingInterval, temperatureUnit, sensors)
    }

    /** `InkbirdIamT1Device(...)` with the given field values. */
    constructor (s: DeviceState)
      ensures State() == s
    {
      manufacturer, swVersion, model, address := s.manufacturer, s.swVersion, s.model, s.address;
      alarmMode, samplingInterval, temperatureUnit := s.alarmMode, s.samplingInterval, s.temperatureUnit;
      sensors := s.sensors;
    }

    /** `update(notification)`: apply one notification frame in place. */
    method Update(notification: seq<byte>)
      requires Readable(notification)
      modifies this
      ensures State() == Apply(old(State()), notification)
    {
      if !HasPreamble(notification) {
        return;
      }
      match notification[2] {
        case 0x01 =>
          sensors := sensors + map[
            Temperature := ParseTemperatureAsWritten(notification, temperatureUnit),
            Humidity := ParseHumidity(notification),
            Co2 := ParseCo2(notification),
            AtmosphericPressure := ParsePressure(notification)];
        case 0x02 =>
          samplingInterval := SamplingIntervalIn(Parse(SamplingIntervalKind, notification));
        case 0x03 =>
          return;
        case 0x04 =>
          alarmMode := AlarmModeIn(Parse(AlarmModeKind, notification));
        case 0x05 =>
          temperatureUnit := TemperatureUnitIn(Parse(TemperatureUnitKind, notification));
        case _ =>
      }
    }

    /** The frame `write_alarm_mode(client, mode)` sends: a frame the device
        reads back as exactly `mode` and that sets nothing but the alarm mode. */
    method WriteAlarmMode(mode: AlarmMode) returns (data: seq<byte>)
      ensures Parse(AlarmModeKind, data) == Some(Alarm(mode))
      ensures Readable(data) && HasPreamble(data) && data[2] == 0x04
      ensures forall s :: Apply(s, data) == s.(alarmMode := Some(mode))
    {
      data := CreateResponse(Alarm(mode));
      ParseCreateResponse(Alarm(mode));
      ApplyCreateResponse(Alarm(mode));
    }

    /** The frame `write_sampling_interval(client, interval)` sends: a frame
        the device reads back as exactly `interval` and that sets nothing
        but the sampling interval. */
    method WriteSamplingInterval(interval: SamplingInterval) returns (data: seq<byte>)
      ensures Parse(SamplingIntervalKind, data) == Some(Interval(interval))
      ensures Readable(data) && HasPreamble(data) && data[2] == 0x02
      ensures forall s :: Apply(s, data) == s.(samplingInterval := Some(interval))
    {
      data := CreateResponse(Interval(interval));
      ParseCreateResponse(Interval(interval));
      ApplyCreateResponse(Interval(interval));
    }
  }

  /** The field of `s` that holds members of class `kind`. */
  function SettingOf(s: DeviceState, kind: SettingKind): Option<Setting> {
    match kind
    case AlarmModeKind => if s.alarmMode.Some? then Some(Alarm(s.alarmMode.value)) else None
    case SamplingIntervalKind => if s.samplingInterval.Some? then Some(Interval(s.samplingInterval.value)) else None
    case TemperatureUnitKind => if s.temperatureUnit.Some? then Some(Unit(s.temperatureUnit.value)) else None
  }

  /** `s` with the field for `v`'s class set to `v`. */
  function WithSetting(s: DeviceState, v: Setting): DeviceState {
    match v
    case Alarm(m) => s.(alarmMode := Some(m))
    case Interval(i) => s.(samplingInterval := Some(i))
    case Unit(u) => s.(temperatureUnit := Some(u))
  }

  /** A table frame, once received, sets the field of its member's class to
      that member and changes nothing else. */
  lemma ApplyCreateResponse(v: Setting)
    ensures Readable(CreateResponse(v)) && HasPreamble(CreateResponse(v))
    ensures CreateResponse(v)[2] == ReportOpcode(KindOf(v))
    ensures forall s :: Apply(s, CreateResponse(v)) == WithSetting(s, v)
  {
    var f := CreateResponse(v);
    CreateResponseShape(v);
    assert f[0] == f[..4][0] && f[1] == f[..4][1] && f[2] == f[..4][2];
    ParseCreateResponse(v);
  }

  // ---------------------------------------------------------------------
  // Restoring a stored device

  datatype Result<+T, +E> = Ok(value: T) | Err(error: E)

  /** The dictionary `from_dict` receives, its three enumeration fields held
      as the integer `.value`s a stored copy carries (None for a missing or
      null entry). */
  datatype StoredDevice = StoredDevice(
    manufacturer: string,
    swVersion: string,
    model: string,
    address: string,
    alarmMode: Option<int>,
    samplingInterval: Option<int>,
    temperatureUnit: Option<int>,
    sensors: map<SensorClass, Measurement>)

  /** The ValueError an enumeration constructor raises for a code it does not know. */
  datatype FromDictError =
    | BadAlarmMode(code: int)
    | BadSamplingInterval(code: int)
    | BadTemperatureUnit(code: int)

  /** True if Python treats the stored entry as false: None or 0. */
  predicate Falsy(c: Option<int>) {
    c == None || c == Some(0)
  }

  /** `ALARM_MODE(c) if c else None`: None for a false entry, the member
      whose value is `c` for a known code, and the ValueError otherwise. */
  function AlarmModeOfCode(c: Option<int>): (r: Result<Option<AlarmMode>, FromDictError>)
    ensures r.Ok? <==> Falsy(c) || 1 <= c.value <= 3
    ensures r.Ok? ==> (r.value == None <==> Falsy(c))
    ensures r.Ok? && r.value.Some? ==> Some(AlarmModeValue(r.value.value)) == c
    ensures r.Err? ==> r.error == BadAlarmMode(c.value)
  {
    if Falsy(c) then Ok(None)
    else match AlarmModeOfValue(c.value)
      case Some(m) => Ok(Some(m))
      case None => Err(BadAlarmMode(c.value))
  }

  /** `SAMPLING_INTERVAL(c) if c else None`: None for a false entry, the
      member whose value is `c` for a known code, and the ValueError otherwise. */
  function SamplingIntervalOfCode(c: Option<int>): (r: Result<Option<SamplingInterval>, FromDictError>)
    ensures r.Ok? <==> Falsy(c) || c.value in {1, 2, 5, 10}
    ensures r.Ok? ==> (r.value == None <==> Falsy(c))
    ensures r.Ok? && r.value.Some? ==> Some(SamplingIntervalValue(r.value.value)) == c
    ensures r.Err? ==> r.error == BadSamplingInterval(c.value)
  {
    if Falsy(c) then Ok(None)
    else match SamplingIntervalOfValue(c.value)
      case Some(i) => Ok(Some(i))
      case None => Err(BadSamplingInterval(c.value))
  }

  /** `TEMPERATURE_UNIT(c) if c else None`: None for a false entry, the
      member whose value is `c` for a known code, and the ValueError otherwise. */
  function TemperatureUnitOfCode(c: Option<int>): (r: Result<Option<TemperatureUnit>, FromDictError>)
    ensures r.Ok? <==> Falsy(c) || c.value == 1 || c.value == 2
    ensures r.Ok? ==> (r.value == None <==> Falsy(c))
    ensures r.Ok? && r.value.Some? ==> Some(TemperatureUnitValue(r.value.value)) == c
    ensures r.Err? ==> r.error == BadTemperatureUnit(c.value)
  {
    if Falsy(c) then Ok(None)
    else match TemperatureUnitOfValue(c.value)
      case Some(u) => Ok(Some(u))
      case None => Err(BadTemperatureUnit(c.value))
  }

  /** `InkbirdIamT1Device.from_dict(data)`: the other fields are copied, the
      three codes are turned into members in the order alarm mode, sampling
      interval, temperature unit, and the first unknown code raises. */
  function FromDict(d: StoredDevice): (r: Result<DeviceState, FromDictError>)
    ensures r.Ok? ==>
      (r.value.manufacturer == d.manufacturer && r.value.swVersion == d.swVersion &&
       r.value.model == d.model && r.value.address == d.address && r.value.sensors == d.sensors)
    ensures r.Err? && !r.error.BadAlarmMode? ==> AlarmModeOfCode(d.alarmMode).Ok?
    ensures r.Err? && r.error.BadTemperatureUnit? ==> SamplingIntervalOfCode(d.samplingInterval).Ok?
  {
    match AlarmModeOfCode(d.alarmMode)
    case Err(e) => Err(e)
    case Ok(alarm) =>
      match SamplingIntervalOfCode(d.samplingInterval)
      case Err(e) => Err(e)
      case Ok(interval) =>
        match TemperatureUnitOfCode(d.temperatureUnit)
        case Err(e) => Err(e)
        case Ok(unit) =>
          Ok(DeviceState(d.manufacturer, d.swVersion, d.model, d.address,
                         alarm, interval, unit, d.sensors))
  }

  /** A device state with each member replaced by its `.value`: the form
      `from_dict` reads back. */
  function StoredForm(s: DeviceState): StoredDevice {
    StoredDevice(s.manufacturer, s.swVersion, s.model, s.address,
                 if s.alarmMode.Some? then Some(AlarmModeValue(s.alarmMode.value)) else None,
                 if s.samplingInterval.Some? then Some(SamplingIntervalValue(s.samplingInterval.value)) else None,
                 if s.temperatureUnit.Some? then Some(TemperatureUnitValue(s.temperatureUnit.value)) else None,
                 s.sensors)
  }
}
