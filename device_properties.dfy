/** What `InkbirdIamT1Device.update` and `from_dict` promise, stated over the
    value model `Device.Apply` and `Device.FromDict`. */
module DeviceProperties {
  import opened Hex
  import opened Settings
  import opened Notification
  import opened Device

  /** True if `t` and `s` agree on everything but the three enumeration fields. */
  predicate OnlySettingsDiffer(s: DeviceState, t: DeviceState) {
    t.(alarmMode := s.alarmMode, samplingInterval := s.samplingInterval, temperatureUnit := s.temperatureUnit) == s
  }

  /** A frame without the `55 aa` preamble, a CO2-limits frame (opcode 0x03)
      and a frame with an opcode outside 0x01..0x05 leave the whole state
      as it was. */
  lemma ApplyIgnored(s: DeviceState, f: seq<byte>)
    requires Readable(f)
    requires !HasPreamble(f) || f[2] == 0x03 || f[2] == 0 || f[2] > 0x05
    ensures Apply(s, f) == s
  {
  }

  /** A report frame (opcode 0x02, 0x04 or 0x05) sets the field of its class
      to `v` exactly when the frame is, byte for byte, the table's frame for
      `v`, to None for every other frame, and touches no other field. */
  lemma {:induction false} ApplyReport(s: DeviceState, f: seq<byte>, kind: SettingKind, v: Setting)
    requires HasPreamble(f) && |f| >= 3 && f[2] == ReportOpcode(kind)
    ensures SettingOf(Apply(s, f), kind) == Some(v) <==> KindOf(v) == kind && f == CreateResponse(v)
    ensures SettingOf(Apply(s, f), kind) == None <==> Parse(kind, f) == None
    ensures forall k :: k != kind ==> SettingOf(Apply(s, f), k) == SettingOf(s, k)
    ensures OnlySettingsDiffer(s, Apply(s, f))
  {
    ParseExact(kind, f, v);
    ApplyReportSets(s, f, kind);
  }

  /** `s` with the field of class `kind` set to the member `p` holds, or None. */
  function Stored(s: DeviceState, kind: SettingKind, p: Option<Setting>): DeviceState {
    match kind
    case AlarmModeKind => s.(alarmMode := AlarmModeIn(p))
    case SamplingIntervalKind => s.(samplingInterval := SamplingIntervalIn(p))
    case TemperatureUnitKind => s.(temperatureUnit := TemperatureUnitIn(p))
  }

  /** A report frame stores the parse result for its class in that class's
      field and nothing else. */
  lemma ApplyReportSets(s: DeviceState, f: seq<byte>, kind: SettingKind)
    requires HasPreamble(f) && |f| >= 3 && f[2] == ReportOpcode(kind)
    ensures SettingOf(Apply(s, f), kind) == Parse(kind, f)
    ensures forall k :: k != kind ==> SettingOf(Apply(s, f), k) == SettingOf(s, k)
    ensures OnlySettingsDiffer(s, Apply(s, f))
  {
    ApplyReportIsStored(s, f, kind);
    StoredSetsOneField(s, kind, Parse(kind, f));
  }

  lemma ApplyReportIsStored(s: DeviceState, f: seq<byte>, kind: SettingKind)
    requires HasPreamble(f) && |f| >= 3 && f[2] == ReportOpcode(kind)
    ensures Apply(s, f) == Stored(s, kind, Parse(kind, f))
  {
  }

  lemma StoredSetsOneField(s: DeviceState, kind: SettingKind, p: Option<Setting>)
    requires p.Some? ==> KindOf(p.value) == kind
    ensures SettingOf(Stored(s, kind, p), kind) == p
    ensures forall k :: k != kind ==> SettingOf(Stored(s, kind, p), k) == SettingOf(s, k)
    ensures OnlySettingsDiffer(s, Stored(s, kind, p))
  {
  }

  /** A sensor frame (opcode 0x01) writes all four keys: the temperature as
      `parse_temperature()` is written (None for an unknown unit and for a
      reading of exactly 0.0), the humidity in
      tenths from the big-endian bytes 7-8, CO2 and pressure from bytes 9-10
      and 11-12; keys of other classes and every other field keep their values. */
  lemma ApplySensorReading(s: DeviceState, f: seq<byte>)
    requires HasPreamble(f) && |f| >= 13 && f[2] == 0x01
    ensures Apply(s, f).sensors.Keys == s.sensors.Keys + AllSensorClasses
    ensures Apply(s, f).sensors[Temperature] == ParseTemperatureAsWritten(f, s.temperatureUnit)
    ensures Apply(s, f).sensors[Temperature] == NoValue <==>
      s.temperatureUnit == None || CelsiusTenths(f, s.temperatureUnit) == Some(0)
    ensures Apply(s, f).sensors[Humidity] == Tenths(f[7] as int * 256 + f[8] as int)
    ensures Apply(s, f).sensors[Co2] == Whole(f[9] as int * 256 + f[10] as int)
    ensures Apply(s, f).sensors[AtmosphericPressure] == Whole(f[11] as int * 256 + f[12] as int)
    ensures forall c :: c in s.sensors && c !in AllSensorClasses ==> Apply(s, f).sensors[c] == s.sensors[c]
    ensures Apply(s, f).(sensors := s.sensors) == s
  {
  }

  /** Receiving the same frame twice leaves the state it left the first time. */
  lemma ApplyIdempotent(s: DeviceState, f: seq<byte>)
    requires Readable(f)
    ensures Apply(Apply(s, f), f) == Apply(s, f)
  {
    if HasPreamble(f) && f[2] == 0x01 {
      var r := Reading(f, s.temperatureUnit);
      assert Apply(s, f).temperatureUnit == s.temperatureUnit;
      assert s.sensors + r + r == s.sensors + r;
    }
  }

  /** A sensor reading depends only on bytes 4 to 12 and on the unit: the
      length byte and anything after offset 12 are ignored. */
  lemma ReadingIgnoresFraming(f: seq<byte>, g: seq<byte>, unit: Option<TemperatureUnit>)
    requires |f| >= 13 && |g| >= 13 && f[4..13] == g[4..13]
    ensures Reading(f, unit) == Reading(g, unit)
  {
    assert forall i :: 4 <= i < 13 ==> f[i] == f[4..13][i - 4] && g[i] == g[4..13][i - 4];
  }

  /** The 13-byte sensor frame carrying a temperature of `t` tenths (sign
      byte 1 for a negative value), humidity `h` tenths, `co2` ppm and
      `pressure` hPa: an encoder the device's decoder can be checked against. */
  function SensorFrame(t: int, h: nat, co2: nat, pressure: nat): (f: seq<byte>)
    requires -0x1_0000 < t < 0x1_0000 && h < 0x1_0000 && co2 < 0x1_0000 && pressure < 0x1_0000
    ensures |f| == 13 && HasPreamble(f) && f[2] == 0x01
  {
    var m := if t < 0 then -t else t;
    [0x55, 0xaa, 0x01, 13, if t < 0 then 1 else 0, m / 256, m % 256,
     h / 256, h % 256, co2 / 256, co2 % 256, pressure / 256, pressure % 256]
  }

  /** Decoding a sensor frame gives back the values it was built from: the
      temperature as is in Celsius, converted to the nearest tenth in
      Fahrenheit, absent with no known unit, and, as `parse_temperature()`
      is written, also absent when it is exactly 0.0 degrees Celsius or
      32.0 degrees Fahrenheit. */
  lemma {:induction false} ReadingOfSensorFrame(t: int, h: nat, co2: nat, pressure: nat, unit: Option<TemperatureUnit>)
    requires -0x1_0000 < t < 0x1_0000 && h < 0x1_0000 && co2 < 0x1_0000 && pressure < 0x1_0000
    ensures RawTemperature(SensorFrame(t, h, co2, pressure)) == t
    ensures Reading(SensorFrame(t, h, co2, pressure), unit) ==
      map[Temperature := match unit
            case None => NoValue
            case Some(Celsius) => if t == 0 then NoValue else Tenths(t)
            case Some(Fahrenheit) => if t == 320 then NoValue else Tenths(FahrenheitToCelsiusTenths(t)),
          Humidity := Tenths(h),
          Co2 := Whole(co2),
          AtmosphericPressure := Whole(pressure)]
  {
    var f := SensorFrame(t, h, co2, pressure);
    var m := if t < 0 then -t else t;
    assert U16At(f, 5) == m;
    assert U16At(f, 7) == h;
    assert U16At(f, 9) == co2;
    assert U16At(f, 11) == pressure;
    FahrenheitZero(t);
  }

  /** The source's truthiness test and the intended `is not None` test
      differ only on a temperature of exactly zero, which the source stores
      as None. */
  lemma TemperatureAsWrittenDropsOnlyZero(f: seq<byte>, unit: Option<TemperatureUnit>)
    requires |f| >= 7
    ensures ParseTemperatureAsWritten(f, unit) ==
      if ParseTemperature(f, unit) == Tenths(0) then NoValue else ParseTemperature(f, unit)
  {
  }

  /** 0.0 degrees Celsius read from a sensor frame: the device as written
      stores no temperature at all, the intended device stores 0.0. */
  lemma ZeroCelsiusDroppedAsWritten()
    ensures Apply(Fresh.(temperatureUnit := Some(Celsius)), SensorFrame(0, 500, 400, 1000)).sensors[Temperature] == NoValue
    ensures ApplyIntended(Fresh.(temperatureUnit := Some(Celsius)), SensorFrame(0, 500, 400, 1000)).sensors[Temperature] == Tenths(0)
  {
    ReadingOfSensorFrame(0, 500, 400, 1000, Some(Celsius));
  }

  /** 32.0 degrees Fahrenheit: the same drop after conversion to 0.0 Celsius. */
  lemma FreezingFahrenheitDroppedAsWritten()
    ensures Apply(Fresh.(temperatureUnit := Some(Fahrenheit)), SensorFrame(320, 500, 400, 1000)).sensors[Temperature] == NoValue
    ensures ApplyIntended(Fresh.(temperatureUnit := Some(Fahrenheit)), SensorFrame(320, 500, 400, 1000)).sensors[Temperature] == Tenths(0)
  {
    ReadingOfSensorFrame(320, 500, 400, 1000, Some(Fahrenheit));
  }

  /** The intended device stores the sensor frame's temperature whenever the
      unit is known, 0.0 included. */
  lemma IntendedSensorReading(s: DeviceState, f: seq<byte>)
    requires HasPreamble(f) && |f| >= 13 && f[2] == 0x01
    ensures ApplyIntended(s, f).sensors[Temperature] == ParseTemperature(f, s.temperatureUnit)
    ensures ApplyIntended(s, f).sensors[Temperature] == NoValue <==> s.temperatureUnit == None
  {
  }

  /** Restoring the stored form of any state gives that state back. */
  lemma FromDictStoredForm(s: DeviceState)
    ensures FromDict(StoredForm(s)) == Ok(s)
  {
    if s.alarmMode.Some? { OfValueOfValue(s.alarmMode.value, One, Celsius); }
    if s.samplingInterval.Some? { OfValueOfValue(Off, s.samplingInterval.value, Celsius); }
    if s.temperatureUnit.Some? { OfValueOfValue(Off, One, s.temperatureUnit.value); }
  }

  /** `from_dict` succeeds exactly when each stored code is false (None or 0)
      or a `.value` of its enumeration; a false code becomes None, a known
      code its member, and the other fields are copied unchanged. */
  lemma FromDictOk(d: StoredDevice)
    ensures FromDict(d).Ok? <==>
      (Falsy(d.alarmMode) || d.alarmMode.value in {1, 2, 3}) &&
      (Falsy(d.samplingInterval) || d.samplingInterval.value in {1, 2, 5, 10}) &&
      (Falsy(d.temperatureUnit) || d.temperatureUnit.value in {1, 2})
    ensures FromDict(d).Ok? ==>
      var s := FromDict(d).value;
      s.manufacturer == d.manufacturer && s.swVersion == d.swVersion &&
      s.model == d.model && s.address == d.address && s.sensors == d.sensors &&
      (s.alarmMode == None <==> Falsy(d.alarmMode)) &&
      (s.alarmMode.Some? ==> Some(AlarmModeValue(s.alarmMode.value)) == d.alarmMode) &&
      (s.samplingInterval == None <==> Falsy(d.samplingInterval)) &&
      (s.samplingInterval.Some? ==> Some(SamplingIntervalValue(s.samplingInterval.value)) == d.samplingInterval) &&
      (s.temperatureUnit == None <==> Falsy(d.temperatureUnit)) &&
      (s.temperatureUnit.Some? ==> Some(TemperatureUnitValue(s.temperatureUnit.value)) == d.temperatureUnit)
  {
  }
}
