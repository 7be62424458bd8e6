/** The device's three configuration enumerations (`ALARM_MODE`,
    `SAMPLING_INTERVAL`, `TEMPERATURE_UNIT`) and their integer `.value`s. */
module Settings {
  import opened Hex

  datatype AlarmMode = Off | Once | EveryTime
  datatype SamplingInterval = One | Two | Five | Ten
  datatype TemperatureUnit = Celsius | Fahrenheit

  /** A member of any of the three enumerations: what the frame table maps to. */
  datatype Setting =
    | Alarm(mode: AlarmMode)
    | Interval(interval: SamplingInterval)
    | Unit(unit: TemperatureUnit)

  /** The enumeration classes, the `cls` argument of `InkbirdNotification.parse`. */
  datatype SettingKind = AlarmModeKind | SamplingIntervalKind | TemperatureUnitKind

  /** The class a member belongs to: `isinstance(v, cls)` holds iff `KindOf(v) == cls`. */
  function KindOf(v: Setting): SettingKind {
    match v
    case Alarm(_) => AlarmModeKind
    case Interval(_) => SamplingIntervalKind
    case Unit(_) => TemperatureUnitKind
  }

  /** `ALARM_MODE.x.value`. */
  function AlarmModeValue(m: AlarmMode): (c: int)
    ensures 1 <= c <= 3
  {
    match m
    case Off => 1
    case Once => 2
    case EveryTime => 3
  }

  /** `SAMPLING_INTERVAL.x.value`: the interval in minutes. */
  function SamplingIntervalValue(i: SamplingInterval): (c: int)
    ensures c in {1, 2, 5, 10}
  {
    match i
    case One => 1
    case Two => 2
    case Five => 5
    case Ten => 10
  }

  /** `TEMPERATURE_UNIT.x.value`. */
  function TemperatureUnitValue(u: TemperatureUnit): (c: int)
    ensures c == 1 || c == 2
  {
    match u
    case Celsius => 1
    case Fahrenheit => 2
  }

  /** `ALARM_MODE(c)`: None where Python raises ValueError. */
  function AlarmModeOfValue(c: int): (r: Option<AlarmMode>)
    ensures r.Some? <==> 1 <= c <= 3
    ensures r.Some? ==> AlarmModeValue(r.value) == c
  {
    if c == 1 then Some(Off)
    else if c == 2 then Some(Once)
    else if c == 3 then Some(EveryTime)
    else None
  }

  /** `SAMPLING_INTERVAL(c)`: None where Python raises ValueError. */
  function SamplingIntervalOfValue(c: int): (r: Option<SamplingInterval>)
    ensures r.Some? <==> c in {1, 2, 5, 10}
    ensures r.Some? ==> SamplingIntervalValue(r.value) == c
  {
    if c == 1 then Some(One)
    else if c == 2 then Some(Two)
    else if c == 5 then Some(Five)
    else if c == 10 then Some(Ten)
    else None
  }

  /** `TEMPERATURE_UNIT(c)`: None where Python raises ValueError. */
  function TemperatureUnitOfValue(c: int): (r: Option<TemperatureUnit>)
    ensures r.Some? <==> c == 1 || c == 2
    ensures r.Some? ==> TemperatureUnitValue(r.value) == c
  {
    if c == 1 then Some(Celsius)
    else if c == 2 then Some(Fahrenheit)
    else None
  }

  /** Looking a member up by its own value gives the member back. */
  lemma OfValueOfValue(m: AlarmMode, i: SamplingInterval, u: TemperatureUnit)
    ensures AlarmModeOfValue(AlarmModeValue(m)) == Some(m)
    ensures SamplingIntervalOfValue(SamplingIntervalValue(i)) == Some(i)
    ensures TemperatureUnitOfValue(TemperatureUnitValue(u)) == Some(u)
  {
  }
}
