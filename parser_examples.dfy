/** The frames and expected values of the parser's unit tests
    (`tests/test_parser.py`), established over the model. */
module ParserExamples {
  import opened Hex
  import opened Settings
  import opened Notification
  import opened Device
  import opened DeviceProperties

  /** The state of a device created as `InkbirdIamT1Device(temperature_unit=unit)`
      after `update(bytes.fromhex(text))`; None where Python would raise. */
  function AfterUpdate(unit: Option<TemperatureUnit>, text: string): Option<DeviceState> {
    match FromHex(text)
    case None => None
    case Some(f) => if Readable(f) then Some(Apply(Fresh.(temperatureUnit := unit), f)) else None
  }

  /** A table text, once decoded and received, sets its member's field. */
  lemma {:induction false} ListedText(unit: Option<TemperatureUnit>, text: string, v: Setting)
    requires text == Entries[EntryIndex(v)].0
    ensures AfterUpdate(unit, text) == Some(WithSetting(Fresh.(temperatureUnit := unit), v))
  {
    ReverseHasEverySetting(v);
    HexOfFromHex(text);
    ApplyCreateResponse(v);
  }

  /** A frame text that starts like the frames of `kind` but differs, at
      digit `pos`, from every table text of its length leaves a fresh device
      as it was. */
  lemma {:induction false} UnlistedText(text: string, kind: SettingKind, pos: nat)
    requires IsLowerHex(text) && |text| >= 8 && text[..8] == HexOf(FrameHead(kind))
    requires pos < |text|
    requires forall i :: 0 <= i < |Entries| && |Entries[i].0| == |text| ==> Entries[i].0[pos] != text[pos]
    ensures AfterUpdate(None, text) == Some(Fresh)
  {
    HexOfFromHex(text);
    var f := FromHex(text).value;
    HexOfPrefix(f, 4);
    HexOfInjective(f[..4], FrameHead(kind));
    assert f[0] == f[..4][0] && f[1] == f[..4][1] && f[2] == f[..4][2];
    ParseUnlisted(kind, f);
    ApplyReportSets(Fresh, f, kind);
    var t := Apply(Fresh, f);
    assert SettingOf(t, AlarmModeKind) == None && SettingOf(t, SamplingIntervalKind) == None;
    assert SettingOf(t, TemperatureUnitKind) == None;
  }

  /** `55aa0409000000000c` sets the alarmMode of a fresh device to Off. */
  lemma AlarmOffExample()
    ensures AfterUpdate(None, "55aa0409000000000c") == Some(Fresh.(alarmMode := Some(Off)))
  {
    ListedText(None, "55aa0409000000000c", Alarm(Off));
  }

  /** `55aa0409010000000d` sets the alarmMode of a fresh device to Once. */
  lemma AlarmOnceExample()
    ensures AfterUpdate(None, "55aa0409010000000d") == Some(Fresh.(alarmMode := Some(Once)))
  {
    ListedText(None, "55aa0409010000000d", Alarm(Once));
  }

  /** `55aa0409010100000e` sets the alarmMode of a fresh device to EveryTime. */
  lemma AlarmEveryTimeExample()
    ensures AfterUpdate(None, "55aa0409010100000e") == Some(Fresh.(alarmMode := Some(EveryTime)))
  {
    ListedText(None, "55aa0409010100000e", Alarm(EveryTime));
  }

  /** `55aa020b0000000001a4b1` sets the samplingInterval of a fresh device to One. */
  lemma IntervalOneExample()
    ensures AfterUpdate(None, "55aa020b0000000001a4b1") == Some(Fresh.(samplingInterval := Some(One)))
  {
    ListedText(None, "55aa020b0000000001a4b1", Interval(One));
  }

  /** `55aa020b0100000001a4b2` sets the samplingInterval of a fresh device to Two. */
  lemma IntervalTwoExample()
    ensures AfterUpdate(None, "55aa020b0100000001a4b2") == Some(Fresh.(samplingInterval := Some(Two)))
  {
    ListedText(None, "55aa020b0100000001a4b2", Interval(Two));
  }

  /** `55aa020b0200000001a4b3` sets the samplingInterval of a fresh device to Five. */
  lemma IntervalFiveExample()
    ensures AfterUpdate(None, "55aa020b0200000001a4b3") == Some(Fresh.(samplingInterval := Some(Five)))
  {
    ListedText(None, "55aa020b0200000001a4b3", Interval(Five));
  }

  /** `55aa020b0400000001a4b5` sets the samplingInterval of a fresh device to Ten. */
  lemma IntervalTenExample()
    ensures AfterUpdate(None, "55aa020b0400000001a4b5") == Some(Fresh.(samplingInterval := Some(Ten)))
  {
    ListedText(None, "55aa020b0400000001a4b5", Interval(Ten));
  }

  /** `55aa050c0000000000000010` sets the temperatureUnit of a fresh device to Celsius. */
  lemma UnitCelsiusExample()
    ensures AfterUpdate(None, "55aa050c0000000000000010") == Some(Fresh.(temperatureUnit := Some(Celsius)))
  {
    ListedText(None, "55aa050c0000000000000010", Unit(Celsius));
  }

  /** `55aa050c0000000000000111` sets the temperatureUnit of a fresh device to Fahrenheit. */
  lemma UnitFahrenheitExample()
    ensures AfterUpdate(None, "55aa050c0000000000000111") == Some(Fresh.(temperatureUnit := Some(Fahrenheit)))
  {
    ListedText(None, "55aa050c0000000000000111", Unit(Fahrenheit));
  }

  /** `55aa04090000000000` is no table text: the alarm mode stays None. */
  lemma AlarmUnlistedExample()
    ensures AfterUpdate(None, "55aa04090000000000") == Some(Fresh)
  {
    HeadText(AlarmModeKind);
    UnlistedText("55aa04090000000000", AlarmModeKind, 17);
  }

  /** `55aa020b00000000000000` is no table text: the sampling interval stays None. */
  lemma IntervalUnlistedExample()
    ensures AfterUpdate(None, "55aa020b00000000000000") == Some(Fresh)
  {
    HeadText(SamplingIntervalKind);
    UnlistedText("55aa020b00000000000000", SamplingIntervalKind, 20);
  }

  /** `55aa050c0000000000000000` is no table text: the temperature unit stays None. */
  lemma UnitUnlistedExample()
    ensures AfterUpdate(None, "55aa050c0000000000000000") == Some(Fresh)
  {
    HeadText(TemperatureUnitKind);
    UnlistedText("55aa050c0000000000000000", TemperatureUnitKind, 22);
  }

  /** `55aa011000010301fe028003eb010185`. */
  const CelsiusReading: seq<byte> :=
    [0x55, 0xaa, 0x01, 0x10, 0x00, 0x01, 0x03, 0x01, 0xfe, 0x02, 0x80, 0x03, 0xeb, 0x01, 0x01, 0x85]

  /** `55aa011010031e027605ea03f101008d`. */
  const FahrenheitReading: seq<byte> :=
    [0x55, 0xaa, 0x01, 0x10, 0x10, 0x03, 0x1e, 0x02, 0x76, 0x05, 0xea, 0x03, 0xf1, 0x01, 0x00, 0x8d]

  /** With the unit set to Celsius: 25.9 degrees, 51.0 %, 640 ppm, 1003 hPa. */
  lemma CelsiusReadingExample()
    ensures Apply(Fresh.(temperatureUnit := Some(Celsius)), CelsiusReading).sensors ==
      map[Temperature := Tenths(259), Humidity := Tenths(510), Co2 := Whole(640), AtmosphericPressure := Whole(1003)]
  {
    assert U16At(CelsiusReading, 5) == 259;
  }

  /** With the unit set to Fahrenheit: 79.8 F reported as 26.6 degrees Celsius,
      63.0 %, 1514 ppm, 1009 hPa. */
  lemma FahrenheitReadingExample()
    ensures Apply(Fresh.(temperatureUnit := Some(Fahrenheit)), FahrenheitReading).sensors ==
      map[Temperature := Tenths(266), Humidity := Tenths(630), Co2 := Whole(1514), AtmosphericPressure := Whole(1009)]
  {
    assert RawTemperature(FahrenheitReading) == 798;
    assert FahrenheitToCelsiusTenths(798) == 266;
  }

  /** The Celsius test frame applied through the device object, followed by
      the command frame that switches the unit to Fahrenheit: the unit
      changes, and the last reading stays as it was until the next sensor
      frame arrives. */
  method ReadingsOnDevice() returns (unit: Option<TemperatureUnit>, temperature: Measurement, humidity: Measurement)
    ensures unit == Some(Fahrenheit)
    ensures temperature == Tenths(259) && humidity == Tenths(510)
  {
    var d := new IamT1Device(Fresh.(temperatureUnit := Some(Celsius)));
    d.Update(CelsiusReading);
    CelsiusReadingExample();
    var reading := d.sensors;
    var fahrenheit := CreateResponse(Unit(Fahrenheit));
    ApplyCreateResponse(Unit(Fahrenheit));
    d.Update(fahrenheit);
    assert d.sensors == reading;
    unit, temperature, humidity := d.temperatureUnit, d.sensors[Temperature], d.sensors[Humidity];
  }
}
