/** `InkbirdNotification`: the table of fixed configuration frames, read in
    both directions. */
module Notification {
  import opened Hex
  import opened Settings

  /** `InkbirdNotification._mapping`, as its entries are written: the
      hexadecimal text of each fixed frame with the member it stands for. */
  const Entries: seq<(string, Setting)> := [
    ("55aa0409000000000c", Alarm(Off)),
    ("55aa0409010000000d", Alarm(Once)),
    ("55aa0409010100000e", Alarm(EveryTime)),
    ("55aa020b0000000001a4b1", Interval(One)),
    ("55aa020b0100000001a4b2", Interval(Two)),
    ("55aa020b0200000001a4b3", Interval(Five)),
    ("55aa020b0400000001a4b5", Interval(Ten)),
    ("55aa050c0000000000000010", Unit(Celsius)),
    ("55aa050c0000000000000111", Unit(Fahrenheit))
  ]

  /** True if no key occurs twice among `entries`. */
  predicate DistinctKeys<K(==), V>(entries: seq<(K, V)>) {
    forall i, j :: 0 <= i < j < |entries| ==> entries[i].0 != entries[j].0
  }

  /** The dictionary a Python dict display or comprehension builds from
      `entries`: every key present, and a repeated key bound to the value
      of its last occurrence. */
  function DictOf<K(==, !new), V>(entries: seq<(K, V)>): (d: map<K, V>)
    ensures forall k :: k in d <==> exists i :: 0 <= i < |entries| && entries[i].0 == k
    ensures forall i :: 0 <= i < |entries| && LastOccurrence(entries, i) ==> d[entries[i].0] == entries[i].1
  {
    if entries == [] then map[]
    else
      var last := entries[|entries| - 1];
      var d := DictOf(entries[..|entries| - 1]);
      assert forall i :: 0 <= i < |entries| - 1 ==> entries[..|entries| - 1][i] == entries[i];
      d[last.0 := last.1]
  }

  /** No entry after position `i` has the key of entry `i`. */
  predicate LastOccurrence<K(==), V>(entries: seq<(K, V)>, i: int)
    requires 0 <= i < |entries|
  {
    forall j :: i < j < |entries| ==> entries[j].0 != entries[i].0
  }

  /** The entries with each pair's key and value exchanged. */
  function Swapped<K, V>(entries: seq<(K, V)>): (r: seq<(V, K)>)
    ensures |r| == |entries|
    ensures forall i :: 0 <= i < |entries| ==> r[i] == (entries[i].1, entries[i].0)
  {
    seq(|entries|, i requires 0 <= i < |entries| => (entries[i].1, entries[i].0))
  }

  /** `InkbirdNotification._mapping`: frame text to member. */
  const Mapping: map<string, Setting> := DictOf(Entries)

  /** `InkbirdNotification._value2notification`: member to frame text,
      `{v: k for k, v in _mapping.items()}`.  The items of `_mapping` are
      `Entries` in order, because its keys are distinct (`EntriesDistinct`). */
  const Reverse: map<Setting, string> := DictOf(Swapped(Entries))

  /** The fixed table has no repeated frame and no repeated member, and every
      frame text is what `bytes.hex()` emits. */
  lemma EntriesDistinct()
    ensures DistinctKeys(Entries)
    ensures DistinctKeys(Swapped(Entries))
    ensures forall i :: 0 <= i < |Entries| ==> IsLowerHex(Entries[i].0)
  {
    EntryKeysDistinct();
    EntryKeysLowerHex();
  }

  /** Two keys of the table differ in length or in their last
      digit, the frame's checksum. */
  lemma EntryKeysDistinct()
    ensures DistinctKeys(Entries)
  {
    forall i, j | 0 <= i < j < |Entries| ensures Entries[i].0 != Entries[j].0 {
      var a, b := Entries[i].0, Entries[j].0;
      if |a| == |b| {
        assert a[|a| - 1] != b[|b| - 1];
      }
    }
  }

  lemma EntryKeysLowerHex()
    ensures forall i :: 0 <= i < |Entries| ==> IsLowerHex(Entries[i].0)
  {
    forall i | 0 <= i < |Entries| ensures IsLowerHex(Entries[i].0) {
      var k := Entries[i].0;
      assert forall c :: c in k ==> IsLowerDigit(c);
    }
  }

  /** When neither keys nor values repeat, the comprehension
      `{v: k for k, v in d.items()}` is the inverse of the dict `d`. */
  lemma {:induction false} SwappedDictInverts<K(!new), V(!new)>(entries: seq<(K, V)>)
    requires DistinctKeys(entries) && DistinctKeys(Swapped(entries))
    ensures forall k :: k in DictOf(entries) ==>
      DictOf(entries)[k] in DictOf(Swapped(entries)) && DictOf(Swapped(entries))[DictOf(entries)[k]] == k
    ensures forall v :: v in DictOf(Swapped(entries)) ==>
      DictOf(Swapped(entries))[v] in DictOf(entries) && DictOf(entries)[DictOf(Swapped(entries))[v]] == v
  {
    var d, r, sw := DictOf(entries), DictOf(Swapped(entries)), Swapped(entries);
    forall k | k in d ensures d[k] in r && r[d[k]] == k {
      var i :| 0 <= i < |entries| && entries[i].0 == k;
      assert LastOccurrence(entries, i);
      assert LastOccurrence(sw, i);
      assert sw[i].0 == d[k];
    }
    forall v | v in r ensures r[v] in d && d[r[v]] == v {
      var i :| 0 <= i < |sw| && sw[i].0 == v;
      assert LastOccurrence(sw, i);
      assert LastOccurrence(entries, i);
      assert entries[i].0 == r[v];
    }
  }

  /** `_value2notification` and `_mapping` are inverse dictionaries. */
  lemma ReverseInvertsMapping()
    ensures forall k :: k in Mapping ==> Mapping[k] in Reverse && Reverse[Mapping[k]] == k
    ensures forall v :: v in Reverse ==> Reverse[v] in Mapping && Mapping[Reverse[v]] == v
  {
    EntriesDistinct();
    SwappedDictInverts(Entries);
  }

  /** The position in `Entries` of each member: every member of the three
      enumerations has a frame. */
  function EntryIndex(v: Setting): (i: nat)
    ensures i < |Entries| && Entries[i].1 == v
  {
    match v
    case Alarm(Off) => 0
    case Alarm(Once) => 1
    case Alarm(EveryTime) => 2
    case Interval(One) => 3
    case Interval(Two) => 4
    case Interval(Five) => 5
    case Interval(Ten) => 6
    case Unit(Celsius) => 7
    case Unit(Fahrenheit) => 8
  }

  /** `_value2notification` holds every member, bound to its row of the table. */
  lemma ReverseHasEverySetting(v: Setting)
    ensures v in Reverse && Reverse[v] == Entries[EntryIndex(v)].0
    ensures IsLowerHex(Reverse[v])
  {
    EntriesDistinct();
    var i := EntryIndex(v);
    assert Swapped(Entries)[i] == (v, Entries[i].0);
    assert LastOccurrence(Swapped(Entries), i);
  }

  /** `dict.get(k)`. */
  function Get<K, V>(d: map<K, V>, k: K): Option<V> {
    if k in d then Some(d[k]) else None
  }

  /** `InkbirdNotification.parse(cls, frame)`: the member the frame's exact
      hexadecimal text maps to, kept only if it belongs to `kind`. */
  function Parse(kind: SettingKind, frame: seq<byte>): (r: Option<Setting>)
    ensures r.Some? ==> KindOf(r.value) == kind
  {
    match Get(Mapping, HexOf(frame))
    case Some(v) => if KindOf(v) == kind then Some(v) else None
    case None => None
  }

  /** `InkbirdNotification.create_response(v)`: the frame whose text
      `_value2notification` binds to `v`. */
  function CreateResponse(v: Setting): (frame: seq<byte>)
    ensures HexOf(frame) == Entries[EntryIndex(v)].0
  {
    ReverseHasEverySetting(v);
    HexOfFromHex(Reverse[v]);
    FromHex(Reverse[v]).value
  }

  /** Parsing with `v`'s own class the frame `create_response(v)` gives `v` back. */
  lemma ParseCreateResponse(v: Setting)
    ensures Parse(KindOf(v), CreateResponse(v)) == Some(v)
  {
    ReverseHasEverySetting(v);
    ReverseInvertsMapping();
  }

  /** `parse(cls, frame)` yields `v` exactly when `v` belongs to `cls` and
      `frame` is, byte for byte, the table's frame for `v`: any other byte
      string (a different payload, a different length, a frame of another
      class) gives None. */
  lemma ParseExact(kind: SettingKind, frame: seq<byte>, v: Setting)
    ensures Parse(kind, frame) == Some(v) <==> KindOf(v) == kind && frame == CreateResponse(v)
  {
    if Parse(kind, frame) == Some(v) {
      ReverseInvertsMapping();
      ReverseHasEverySetting(v);
      assert Reverse[v] == HexOf(frame);
      HexOfInjective(frame, CreateResponse(v));
    }
    if KindOf(v) == kind && frame == CreateResponse(v) {
      ParseCreateResponse(v);
    }
  }

  /** A frame of the table parsed with any other class gives None. */
  lemma ParseOtherKind(kind: SettingKind, v: Setting)
    requires kind != KindOf(v)
    ensures Parse(kind, CreateResponse(v)) == None
  {
    ParseCreateResponse(v);
  }

  /** Distinct members have distinct command frames. */
  lemma CreateResponseInjective(v: Setting, w: Setting)
    requires CreateResponse(v) == CreateResponse(w)
    ensures v == w
  {
    ParseCreateResponse(v);
    ParseCreateResponse(w);
  }

  /** The opcode (byte 2) of the report frames of each class. */
  function ReportOpcode(kind: SettingKind): byte {
    match kind
    case AlarmModeKind => 0x04
    case SamplingIntervalKind => 0x02
    case TemperatureUnitKind => 0x05
  }

  /** The length of the fixed frames of each class. */
  function FrameLength(kind: SettingKind): nat {
    match kind
    case AlarmModeKind => 9
    case SamplingIntervalKind => 11
    case TemperatureUnitKind => 12
  }

  /** Every table frame starts with the preamble `55 aa`, carries its class's
      opcode in byte 2 and its own length in byte 3. */
  lemma CreateResponseShape(v: Setting)
    ensures |CreateResponse(v)| == FrameLength(KindOf(v))
    ensures CreateResponse(v)[..4] == FrameHead(KindOf(v))
  {
    var f := CreateResponse(v);
    EntryText(v);
    HexOfPrefix(f, 4);
    HeadText(KindOf(v));
    HexOfInjective(f[..4], FrameHead(KindOf(v)));
  }

  /** The first four bytes of the table's frames of each class. */
  function FrameHead(kind: SettingKind): seq<byte> {
    [0x55, 0xaa, ReportOpcode(kind), FrameLength(kind)]
  }

  lemma HeadText(kind: SettingKind)
    ensures HexOf(FrameHead(kind)) == match kind
      case AlarmModeKind => "55aa0409"
      case SamplingIntervalKind => "55aa020b"
      case TemperatureUnitKind => "55aa050c"
  {
  }

  lemma EntryText(v: Setting)
    ensures |Entries[EntryIndex(v)].0| == 2 * FrameLength(KindOf(v))
    ensures Entries[EntryIndex(v)].0[..8] == match KindOf(v)
      case AlarmModeKind => "55aa0409"
      case SamplingIntervalKind => "55aa020b"
      case TemperatureUnitKind => "55aa050c"
  {
  }

  /** A frame whose text is the table's text for `v` parses, with `v`'s
      class, to `v`. */
  lemma ParseListed(kind: SettingKind, frame: seq<byte>, v: Setting)
    requires KindOf(v) == kind && HexOf(frame) == Entries[EntryIndex(v)].0
    ensures Parse(kind, frame) == Some(v)
  {
    HexOfInjective(frame, CreateResponse(v));
    ParseCreateResponse(v);
  }

  /** A frame whose text is not in the table parses to None with every class. */
  lemma ParseUnlisted(kind: SettingKind, frame: seq<byte>)
    requires forall i :: 0 <= i < |Entries| ==> Entries[i].0 != HexOf(frame)
    ensures Parse(kind, frame) == None
  {
  }
}
