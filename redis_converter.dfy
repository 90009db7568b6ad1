/** ttn-redis-converter: decodes a sensor packet into data records, builds the
    channel descriptors, and produces a configuration message (on first contact
    and after a reboot) and a data message. */
module RedisConverter {
  import opened Values
  import opened Bits
  import opened Layout
  import opened Catalog
  import opened Codec
  import opened Messages
  import opened Counters
  import opened Records

  /** The readings of a packet, in the order they are read and sent: position
      (two `int:24`), temperature and humidity (`int:12`), then supply, lux, the
      two particulate-matter sizes and battery when present. */
  function Fields(p: Presence): seq<Field>
  {
    CoreFields + SupplyFields(p) + LuxFields(p) + PmFields(p) + BatteryFields(p)
  }

  const CoreFields := [Field(0, SignedPair(24)), Field(1, Signed(12)), Field(2, Signed(12))]
  function SupplyFields(p: Presence): seq<Field> { if p.supply then [Field(3, Unsigned(8))] else [] }
  function LuxFields(p: Presence): seq<Field> { if p.lux then [Field(5, Unsigned(16))] else [] }
  function PmFields(p: Presence): seq<Field> { if p.pm then [Field(6, Unsigned(16)), Field(7, Unsigned(16))] else [] }
  function BatteryFields(p: Presence): seq<Field> { if p.battery then [Field(4, Unsigned(8))] else [] }

  /** The flag byte of a port 13 packet, read most significant bit first: lux,
      particulate matter, battery, four unused bits, extra values. Firmware and
      supply are always present. */
  function FlagPresence(payload: seq<byte>): Presence
    requires |payload| >= 1
  {
    Presence(true, true, BitAt(payload, 0), BitAt(payload, 1), BitAt(payload, 2), BitAt(payload, 7))
  }

  function Ints(s: seq<nat>): (r: seq<Value>)
    ensures |r| == |s| && forall i :: 0 <= i < |s| ==> r[i] == VInt(s[i])
  {
    seq(|s|, i requires 0 <= i < |s| => VInt(s[i]))
  }

  /** The extra values at the end of a port 13 packet: pairs of a `uint:5` size
      s and a value of s + 1 bits, read while at least five bits remain and the
      value fits. */
  function ExtraValues(payload: seq<byte>, pos: nat): (r: seq<nat>)
    requires pos <= 8 * |payload|
    ensures forall i :: 0 <= i < |r| ==> r[i] < Pow2(32)
    ensures 6 * |r| <= 8 * |payload| - pos
    decreases 8 * |payload| - pos
  {
    var len := 8 * |payload|;
    if pos >= len || len - pos < 5 then []
    else
      var bits := UintAt(payload, pos, 5) + 1;
      if len - (pos + 5) < bits then []
      else
        var v := UintAt(payload, pos + 5, bits);
        Pow2Monotone(bits, 32);
        [v] + ExtraValues(payload, pos + 5 + bits)
  }

  /** The sizes `uint:5 + 1` of the extra values, one per value read. */
  function ExtraSizes(payload: seq<byte>, pos: nat): seq<nat>
    requires pos <= 8 * |payload|
    decreases 8 * |payload| - pos
  {
    var len := 8 * |payload|;
    if pos >= len || len - pos < 5 then []
    else
      var bits := UintAt(payload, pos, 5) + 1;
      if len - (pos + 5) < bits then []
      else [bits] + ExtraSizes(payload, pos + 5 + bits)
  }

  /** Every extra value has a size of 1 to 32 bits and fits in it: the first
      one is below 2^(s+1) for s the `uint:5` field before it. */
  lemma {:induction false} ExtraValuesSized(payload: seq<byte>, pos: nat)
    requires pos <= 8 * |payload|
    ensures var vs, ss := ExtraValues(payload, pos), ExtraSizes(payload, pos);
      |vs| == |ss| && forall i :: 0 <= i < |vs| ==> 1 <= ss[i] <= 32 && vs[i] < Pow2(ss[i])
    ensures ExtraSizes(payload, pos) != [] ==> pos + 5 <= 8 * |payload| && ExtraSizes(payload, pos)[0] == UintAt(payload, pos, 5) + 1
    decreases 8 * |payload| - pos
  {
    var len := 8 * |payload|;
    if pos >= len || len - pos < 5 {
      assert ExtraValues(payload, pos) == [] && ExtraSizes(payload, pos) == [];
    } else {
      var bits := UintAt(payload, pos, 5) + 1;
      if len - (pos + 5) < bits {
        assert ExtraValues(payload, pos) == [] && ExtraSizes(payload, pos) == [];
      } else {
        var next := pos + 5 + bits;
        ExtraHead(payload, pos);
        ExtraValuesSized(payload, next);
        SizedCons(UintAt(payload, pos + 5, bits), bits, ExtraValues(payload, next), ExtraSizes(payload, next));
      }
    }
  }

  lemma SizedCons(v: nat, size: nat, vs: seq<nat>, ss: seq<nat>)
    requires 1 <= size <= 32 && v < Pow2(size)
    requires |vs| == |ss| && forall i :: 0 <= i < |vs| ==> 1 <= ss[i] <= 32 && vs[i] < Pow2(ss[i])
    ensures var vs, ss := [v] + vs, [size] + ss;
      |vs| == |ss| && forall i :: 0 <= i < |vs| ==> 1 <= ss[i] <= 32 && vs[i] < Pow2(ss[i])
  {
    var vs2, ss2 := [v] + vs, [size] + ss;
    forall i | 0 <= i < |vs2| ensures 1 <= ss2[i] <= 32 && vs2[i] < Pow2(ss2[i]) {
      if i > 0 {
        assert vs2[i] == vs[i - 1] && ss2[i] == ss[i - 1];
      }
    }
  }

  /** One step of the extra-value loop: a size of 1 to 32 bits and a value
      that fits in it, followed by the values after it. */
  lemma ExtraHead(payload: seq<byte>, pos: nat)
    requires pos + 5 <= 8 * |payload| && pos + 5 + UintAt(payload, pos, 5) + 1 <= 8 * |payload|
    ensures var bits := UintAt(payload, pos, 5) + 1;
      && 1 <= bits <= 32 && UintAt(payload, pos + 5, bits) < Pow2(bits)
      && ExtraValues(payload, pos) == [UintAt(payload, pos + 5, bits)] + ExtraValues(payload, pos + 5 + bits)
      && ExtraSizes(payload, pos) == [bits] + ExtraSizes(payload, pos + 5 + bits)
  {
    assert Pow2(5) == 32;
  }

  lemma {:induction false} Pow2Monotone(a: nat, b: nat)
    requires a <= b
    ensures Pow2(a) <= Pow2(b)
    decreases b
  {
    if a < b {
      Pow2Monotone(a, b - 1);
    }
  }

  /** The start of a packet: its optional values (from the port and length, or
      from the flag byte on port 13) and the firmware version; also the bit
      position where the readings start. Nothing for an unknown port or an
      invalid length; ReadError when a port 13 packet ends early. */
  function Header(port: int, payload: seq<byte>): (r: Outcome<(Presence, Option<nat>, nat)>)
    ensures r.Done? ==> r.value.2 <= 8 * |payload|
  {
    if port == 13 && |payload| == 0 then Failed(ReadError)
    else
      var pres := if port == 13 then Some(FlagPresence(payload)) else FixedPresence(port, |payload|);
      if pres.None? then Ignored
      else
        var p := pres.value;
        var fwPos := if port == 13 then 8 else 0;
        var start := if p.firmware then fwPos + 8 else fwPos;
        if start > 8 * |payload| then Failed(ReadError)
        else Done((p, if p.firmware then Some(UintAt(payload, fwPos, 8)) else None, start))
  }

  /** What `process_data` reads from a payload on a port. */
  function Decode(port: int, payload: seq<byte>): Outcome<Packet>
  {
    match Header(port, payload)
    case Ignored => Ignored
    case Failed(e) => Failed(e)
    case Done((p, fw, start)) => Body(port, payload, p, fw, start, ReadFields(payload, start, Fields(p)))
  }

  /** The readings after the header, then the extra values when flagged. */
  function Body(port: int, payload: seq<byte>, p: Presence, fw: Option<nat>, start: nat, readings: Option<seq<Value>>): Outcome<Packet>
    requires readings.Some? ==> start + TotalWidth(Fields(p)) <= 8 * |payload|
  {
    match readings
    case None => Failed(ReadError)
    case Some(data) =>
      var extra := ExtraValues(payload, start + TotalWidth(Fields(p)));
      Done(Packet(port, p, fw, if p.extra then data + [Reading(8, VList(Ints(extra)))] else data))
  }

  lemma SegmentWidths(p: Presence)
    ensures TotalWidth(CoreFields) == 72
    ensures TotalWidth(SupplyFields(p)) == if p.supply then 8 else 0
    ensures TotalWidth(LuxFields(p)) == if p.lux then 16 else 0
    ensures TotalWidth(PmFields(p)) == if p.pm then 32 else 0
    ensures TotalWidth(BatteryFields(p)) == if p.battery then 8 else 0
  {
    assert CoreFields[..2] == [Field(0, SignedPair(24)), Field(1, Signed(12))];
    WidthOfTwo(Field(0, SignedPair(24)), Field(1, Signed(12)));
    WidthOfOne(Field(3, Unsigned(8)));
    WidthOfOne(Field(5, Unsigned(16)));
    WidthOfTwo(Field(6, Unsigned(16)), Field(7, Unsigned(16)));
    WidthOfOne(Field(4, Unsigned(8)));
  }

  /** The readings take 72 bits plus 8, 16, 32 and 8 for supply, lux,
      particulate matter and battery. */
  lemma FieldsWidth(p: Presence)
    ensures TotalWidth(Fields(p)) == 72 + (if p.supply then 8 else 0) + (if p.lux then 16 else 0)
                                     + (if p.pm then 32 else 0) + (if p.battery then 8 else 0)
  {
    SegmentWidths(p);
    var s2 := CoreFields + SupplyFields(p);
    var s3 := s2 + LuxFields(p);
    var s4 := s3 + PmFields(p);
    TotalWidthAppend(CoreFields, SupplyFields(p));
    TotalWidthAppend(s2, LuxFields(p));
    TotalWidthAppend(s3, PmFields(p));
    TotalWidthAppend(s4, BatteryFields(p));
  }

  /** The readings of `process_data`, from the position to the battery. */
  method ReadReadings(stream: BitStream, p: Presence) returns (r: Option<seq<Value>>)
    requires stream.Valid()
    modifies stream
    ensures stream.Valid()
    ensures r == ReadFields(stream.bytes, old(stream.pos), Fields(p))
    ensures r.Some? ==> stream.pos == old(stream.pos) + TotalWidth(Fields(p))
  {
    var start := stream.pos;
    ghost var s1 := CoreFields;
    ghost var s2 := s1 + SupplyFields(p);
    ghost var s3 := s2 + LuxFields(p);
    ghost var s4 := s3 + PmFields(p);
    SegmentWidths(p);
    FieldsWidth(p);
    TotalWidthAppend(s1, SupplyFields(p));
    TotalWidthAppend(s2, LuxFields(p));
    TotalWidthAppend(s3, PmFields(p));
    TotalWidthAppend(s4, BatteryFields(p));
    assert [] + CoreFields == s1;
    var data := ReadRun(stream, start, [], [], CoreFields);
    if data.None? { return None; }
    data := ReadRun(stream, start, data.value, s1, SupplyFields(p));
    if data.None? { return None; }
    data := ReadRun(stream, start, data.value, s2, LuxFields(p));
    if data.None? { return None; }
    data := ReadRun(stream, start, data.value, s3, PmFields(p));
    if data.None? { return None; }
    data := ReadRun(stream, start, data.value, s4, BatteryFields(p));
    return data;
  }

  /** The reads of `process_data`, from the flag byte (port 13) to the extra
      values. */
  method DecodePayload(port: int, payload: seq<byte>) returns (r: Outcome<Packet>)
    ensures r == Decode(port, payload)
  {
    var stream := new BitStream(payload);
    var header := ReadHeader(stream, port);
    if !header.Done? {
      return if header.Ignored? then Ignored else Failed(header.error);
    }
    var (p, firmware, start) := header.value;
    r := ReadBody(stream, port, p, firmware, start);
  }

  /** The readings and the extra values. */
  method ReadBody(stream: BitStream, port: int, p: Presence, firmware: Option<nat>, start: nat) returns (r: Outcome<Packet>)
    requires stream.Valid() && stream.pos == start
    modifies stream
    ensures r == Body(port, stream.bytes, p, firmware, start, ReadFields(stream.bytes, start, Fields(p)))
  {
    var readings := ReadReadings(stream, p);
    if readings.None? {
      return Failed(ReadError);
    }
    ghost var bytes, end := stream.bytes, stream.pos;
    assert end == start + TotalWidth(Fields(p));
    var data := readings.value;
    if p.extra {
      var values := ReadExtraValues(stream);
      assert values == ExtraValues(bytes, end);
      data := data + [Reading(8, VList(Ints(values)))];
    }
    r := Done(Packet(port, p, firmware, data));
    BodyDone(port, bytes, p, firmware, start, readings.value, data);
  }

  lemma BodyDone(port: int, payload: seq<byte>, p: Presence, fw: Option<nat>, start: nat, readings: seq<Value>, data: seq<Value>)
    requires start + TotalWidth(Fields(p)) <= 8 * |payload|
    requires data == if p.extra then readings + [Reading(8, VList(Ints(ExtraValues(payload, start + TotalWidth(Fields(p))))))] else readings
    ensures Body(port, payload, p, fw, start, Some(readings)) == Done(Packet(port, p, fw, data))
  {
  }

  /** The port checks of `process_data`, the flag byte of port 13 and the
      firmware version. */
  method ReadHeader(stream: BitStream, port: int) returns (r: Outcome<(Presence, Option<nat>, nat)>)
    requires stream.Valid() && stream.pos == 0
    modifies stream
    ensures stream.Valid()
    ensures r == Header(port, stream.bytes)
    ensures r.Done? ==> stream.pos == r.value.2
  {
    var p: Presence;
    if port == 13 {
      var lux := stream.ReadBool();
      if lux.None? {
        return Failed(ReadError);
      }
      var pm := stream.ReadBool();
      var battery := stream.ReadBool();
      var unused := stream.ReadUint(4);
      var extra := stream.ReadBool();
      p := Presence(true, true, lux.value, pm.value, battery.value, extra.value);
      assert p == FlagPresence(stream.bytes);
    } else {
      var fixed := FixedPresence(port, |stream.bytes|);
      if fixed.None? {
        return Ignored;
      }
      p := fixed.value;
    }
    var firmware: Option<nat> := None;
    if p.firmware {
      var v := stream.ReadUint(8);
      if v.None? {
        return Failed(ReadError);
      }
      firmware := Some(v.value);
    }
    return Done((p, firmware, stream.pos));
  }

  /** One extra value: its `uint:5` size and then the value, or None when
      fewer than five bits are left or the value would not fit. */
  method ReadExtraValue(stream: BitStream) returns (v: Option<nat>)
    requires stream.Valid()
    modifies stream
    ensures stream.Valid() && old(stream.pos) <= stream.pos
    ensures v.None? ==> ExtraValues(stream.bytes, old(stream.pos)) == []
    ensures v.Some? ==> old(stream.pos) < stream.pos
    ensures v.Some? ==> ExtraValues(stream.bytes, old(stream.pos)) == [v.value] + ExtraValues(stream.bytes, stream.pos)
  {
    if stream.Len() - stream.pos < 5 {
      return None;
    }
    var size := stream.ReadUint(5);
    var bits := size.value + 1;
    if stream.Len() - stream.pos < bits {
      return None;
    }
    var value := stream.ReadUint(bits);
    return Some(value.value);
  }

  /** The loop over the extra values: stops at the end of the stream, when fewer
      than five bits are left, or when the value would not fit. */
  method ReadExtraValues(stream: BitStream) returns (values: seq<nat>)
    requires stream.Valid()
    modifies stream
    ensures values == ExtraValues(stream.bytes, old(stream.pos))
  {
    values := [];
    while stream.pos < stream.Len()
      invariant stream.Valid() && old(stream.pos) <= stream.pos
      invariant values + ExtraValues(stream.bytes, stream.pos) == ExtraValues(stream.bytes, old(stream.pos))
      decreases stream.Len() - stream.pos
    {
      var v := ReadExtraValue(stream);
      if v.None? {
        break;
      }
      values := values + [v.value];
    }
  }

  // ---------------------------------------------------------------------------
  // Channel descriptors

  const PositionChannel := Channel(0, Some("position"), Some("degrees"), None, None, Some(32768), None)
  const TemperatureChannel := Channel(1, Some("temperature"), Some("degrees_celsius"), None, None, Some(16), None)
  const HumidityChannel := Channel(2, Some("humidity"), Some("percent_rh"), None, None, Some(16), None)
  const SupplyChannel := Channel(3, Some("voltage"), Some("volt"), Some("supply"), None, Some(100), Some(1))
  const BatteryChannel := Channel(4, Some("voltage"), Some("volt"), Some("battery"), None, Some(50), Some(1))

  /** The lux channel; port 13 packets scale lux by 4. */
  function LuxChannel(port: int): Channel
  {
    Channel(5, Some("ambient_light"), Some("lux"), None, None, if port == 13 then Some(4) else None, None)
  }

  const Pm25Channel := Channel(6, Some("particulate_matter"), Some("ug_per_cubic_meter"), None, Some(VFloat("2.5")), None, None)
  const Pm10Channel := Channel(7, Some("particulate_matter"), Some("ug_per_cubic_meter"), None, Some(VInt(10)), None, None)
  const ExtraChannel := Channel(8, None, None, None, None, None, None)

  /** The channels a packet describes, in the order of its data records. */
  function Channels(pk: Packet): seq<Channel>
  {
    var p := pk.presence;
    CoreChannels + SupplyChannels(p) + LuxChannels(pk.port, p) + PmChannels(p) + BatteryChannels(p) + ExtraChannels(p)
  }

  const CoreChannels := [PositionChannel, TemperatureChannel, HumidityChannel]
  function SupplyChannels(p: Presence): seq<Channel> { if p.supply then [SupplyChannel] else [] }
  function LuxChannels(port: int, p: Presence): seq<Channel> { if p.lux then [LuxChannel(port)] else [] }
  function PmChannels(p: Presence): seq<Channel> { if p.pm then [Pm25Channel, Pm10Channel] else [] }
  function BatteryChannels(p: Presence): seq<Channel> { if p.battery then [BatteryChannel] else [] }
  function ExtraChannels(p: Presence): seq<Channel> { if p.extra then [ExtraChannel] else [] }

  /** The configuration list `config` of a packet. */
  function Descriptors(pk: Packet): seq<Value>
  {
    ConfigList(pk.firmware, Channels(pk))
  }

  /** `list(map(encode, config))`: each descriptor compacted with this
      converter's catalog. */
  function EncodeConfig(config: seq<Value>): (r: seq<Value>)
    ensures |r| == |config|
  {
    seq(|config|, i requires 0 <= i < |config| => EncodeObj(config[i], FullKeyCodes(), RedisConverterValueCodes()))
  }

  // ---------------------------------------------------------------------------
  // The converter

  /** The messages one packet produces and the counter map after it. */
  function Step(last: map<string, int>, msg: Uplink, payload: seq<byte>): (Outcome<seq<Envelope>>, map<string, int>)
  {
    match Decode(msg.port, payload)
    case Ignored => (Ignored, last)
    case Failed(e) => (Failed(e), last)
    case Done(pk) =>
      var node := MakeTtnNodeId(msg);
      var config :=
        if GenerateConfig(last, node, msg.counter)
        then [ProduceMessage(msg, EncodeConfig(Descriptors(pk)), CONFIG_PORT)] else [];
      (Done(config + [ProduceMessage(msg, pk.data, DATA_PORT)]), last[node := msg.counter])
  }

  class Converter {
    /** `last_counter_seen`: node id -> last frame counter */
    var lastCounterSeen: map<string, int>

    constructor()
      ensures lastCounterSeen == map[]
    {
      lastCounterSeen := map[];
    }

    /** `process_data(msg_obj, payload)`, the messages it yields in order. */
    method ProcessData(msg: Uplink, payload: seq<byte>) returns (r: Outcome<seq<Envelope>>)
      modifies this
      ensures (r, lastCounterSeen) == Step(old(lastCounterSeen), msg, payload)
    {
      var decoded := DecodePayload(msg.port, payload);
      if !decoded.Done? {
        r := if decoded.Ignored? then Ignored else Failed(decoded.error);
        return;
      }
      var pk := decoded.value;
      var nodeId := MakeTtnNodeId(msg);
      var generate := false;
      if nodeId in lastCounterSeen {
        if lastCounterSeen[nodeId] > msg.counter {
          generate := true;
        }
      } else {
        generate := true;
      }
      lastCounterSeen := lastCounterSeen[nodeId := msg.counter];
      var out: seq<Envelope> := [];
      var obj := msg;
      if generate {
        var config := EncodeConfig(Descriptors(pk));
        var e := ProduceMessage(obj, config, CONFIG_PORT);
        out := [e];
        obj := e.msg;
      }
      ProduceOverwrites(msg, [], pk.data, CONFIG_PORT, DATA_PORT);
      out := out + [ProduceMessage(obj, pk.data, DATA_PORT)];
      return Done(out);
    }
  }

  // ---------------------------------------------------------------------------
  // Properties

  function ExtraIds(p: Presence): seq<int> { if p.extra then [8] else [] }

  lemma CoreIds()
    ensures Ids(CoreChannels) == FieldChannels(CoreFields)
  {
  }

  lemma SegmentIds(port: int, p: Presence)
    ensures Ids(SupplyChannels(p)) == FieldChannels(SupplyFields(p))
    ensures Ids(LuxChannels(port, p)) == FieldChannels(LuxFields(p))
    ensures Ids(PmChannels(p)) == FieldChannels(PmFields(p))
    ensures Ids(BatteryChannels(p)) == FieldChannels(BatteryFields(p))
    ensures Ids(ExtraChannels(p)) == ExtraIds(p)
  {
  }

  /** The channels described are those read, in the same order. */
  lemma ChannelIds(pk: Packet)
    ensures Ids(Channels(pk)) == FieldChannels(Fields(pk.presence)) + ExtraIds(pk.presence)
  {
    var p := pk.presence;
    CoreIds();
    SegmentIds(pk.port, p);
    var c1 := CoreChannels + SupplyChannels(p);
    var c2 := c1 + LuxChannels(pk.port, p);
    var c3 := c2 + PmChannels(p);
    var c4 := c3 + BatteryChannels(p);
    var f1 := CoreFields + SupplyFields(p);
    var f2 := f1 + LuxFields(p);
    var f3 := f2 + PmFields(p);
    IdsAppend(CoreChannels, SupplyChannels(p));
    FieldChannelsAppend(CoreFields, SupplyFields(p));
    assert Ids(c1) == FieldChannels(f1);
    IdsAppend(c1, LuxChannels(pk.port, p));
    FieldChannelsAppend(f1, LuxFields(p));
    assert Ids(c2) == FieldChannels(f2);
    IdsAppend(c2, PmChannels(p));
    FieldChannelsAppend(f2, PmFields(p));
    assert Ids(c3) == FieldChannels(f3);
    IdsAppend(c3, BatteryChannels(p));
    FieldChannelsAppend(f3, BatteryFields(p));
    assert Ids(c4) == FieldChannels(Fields(p));
    IdsAppend(c4, ExtraChannels(p));
  }

  lemma DescriptorChannels(pk: Packet)
    ensures |Descriptors(pk)| == |Channels(pk)| + 1
    ensures ChannelId(Descriptors(pk)[0]) == None
    ensures SameChannels(Descriptors(pk)[1..], FieldChannels(Fields(pk.presence)) + ExtraIds(pk.presence))
  {
    ConfigListChannels(pk.firmware, Channels(pk));
    ChannelIds(pk);
  }

  /** The configuration and the data of a packet line up: after the node
      descriptor, the i-th descriptor describes the channel of the i-th data
      record; the node descriptor has no channel id. */
  lemma DescriptorsMatchData(port: int, payload: seq<byte>)
    requires Decode(port, payload).Done?
    ensures var pk := Decode(port, payload).value;
      var ds := Descriptors(pk);
      && |ds| == |pk.data| + 1
      && ChannelId(ds[0]) == None
      && forall i :: 0 <= i < |pk.data| ==> ChannelId(ds[i + 1]) == ChannelId(pk.data[i]) != None
  {
    var pk := Decode(port, payload).value;
    DataChannels(port, payload);
    DescriptorChannels(pk);
    var ds := Descriptors(pk);
    forall i | 0 <= i < |pk.data| ensures ChannelId(ds[i + 1]) == ChannelId(pk.data[i]) {
      assert ds[1..][i] == ds[i + 1];
    }
  }

  /** The data records of a decoded packet carry the channel ids of its fields,
      then channel 8 when it has extra values. */
  lemma DataChannels(port: int, payload: seq<byte>)
    requires Decode(port, payload).Done?
    ensures var pk := Decode(port, payload).value;
      SameChannels(pk.data, FieldChannels(Fields(pk.presence)) + ExtraIds(pk.presence))
  {
    var pk := Decode(port, payload).value;
    var (p, fw, start) := Header(port, payload).value;
    var fs := Fields(p);
    ReadChannels(payload, start, fs);
    var data := ReadFields(payload, start, fs).value;
    if p.extra {
      var extra := Reading(8, VList(Ints(ExtraValues(payload, start + TotalWidth(fs)))));
      assert SameChannels([extra], [8]);
      SameChannelsAppend(data, FieldChannels(fs), [extra], [8]);
    } else {
      assert data + [] == data;
    }
  }

  /** On ports 10, 11 and 12 an accepted length is exactly the length of its
      layout: the packet decodes, and every bit of it is read. */
  lemma FixedPortsDecode(port: int, payload: seq<byte>)
    requires FixedPresence(port, |payload|).Some?
    ensures Decode(port, payload).Done?
    ensures var p := FixedPresence(port, |payload|).value;
      && (if p.firmware then 8 else 0) + TotalWidth(Fields(p)) == 8 * |payload|
      && |Decode(port, payload).value.data| == |Fields(p)|
  {
    FieldsWidth(FixedPresence(port, |payload|).value);
  }

  /** Exactly the packets on an unknown port, and those on ports 10 to 12 with a
      length no layout has, are dropped. */
  lemma IgnoredPackets(port: int, payload: seq<byte>)
    ensures Decode(port, payload) == Ignored <==> port != 13 && FixedPresence(port, |payload|).None?
  {
    if port != 13 && FixedPresence(port, |payload|).Some? {
      FixedPortsDecode(port, payload);
    }
  }

  /** A port 13 packet is never dropped; it fails exactly when it is shorter
      than its flag byte, firmware version and readings. */
  lemma Port13Decode(payload: seq<byte>)
    ensures Decode(13, payload) != Ignored
    ensures Decode(13, payload).Failed? <==>
      |payload| == 0 || 16 + TotalWidth(Fields(FlagPresence(payload))) > 8 * |payload|
  {
  }

  /** A dropped or failed packet produces nothing and leaves the counter map as
      it was. */
  lemma RejectedPacketKeepsState(last: map<string, int>, msg: Uplink, payload: seq<byte>)
    requires !Decode(msg.port, payload).Done?
    ensures !Step(last, msg, payload).0.Done?
    ensures Step(last, msg, payload).1 == last
  {
  }

  /** A decoded packet records its counter for its node only, and produces the
      data message last, preceded by a configuration message exactly when
      GenerateConfig holds; both keep the uplink's other fields. */
  lemma AcceptedPacketMessages(last: map<string, int>, msg: Uplink, payload: seq<byte>)
    requires Decode(msg.port, payload).Done?
    ensures var (out, last') := Step(last, msg, payload);
      var node := MakeTtnNodeId(msg);
      var pk := Decode(msg.port, payload).value;
      && last' == last[node := msg.counter]
      && out.Done?
      && |out.value| == (if GenerateConfig(last, node, msg.counter) then 2 else 1)
      && out.value[|out.value| - 1].msg == msg.(port := DATA_PORT)
      && out.value[|out.value| - 1].payload == pk.data
      && (|out.value| == 2 ==>
            out.value[0].msg == msg.(port := CONFIG_PORT) && |out.value[0].payload| == |pk.data| + 1)
  {
    var pk := Decode(msg.port, payload).value;
    DescriptorsMatchData(msg.port, payload);
  }

  /** The configuration message is lossless: expanding each compacted
      descriptor with the catalog the converter compacted it with gives the
      descriptor back. */
  lemma ConfigRoundTrip(pk: Packet)
    ensures var ds := Descriptors(pk);
      var msg := EncodeConfig(ds);
      forall i :: 0 <= i < |ds| ==> DecodeObj(msg[i], FullKeys, RedisConverterValues) == ds[i]
  {
    var ds := Descriptors(pk);
    ConverterTableNames();
    ConfigListRestorable(pk.firmware, Channels(pk), RedisConverterValues);
    FullKeysInjective();
    RedisConverterValuesInjective();
    forall i | 0 <= i < |ds| ensures DecodeObj(EncodeConfig(ds)[i], FullKeys, RedisConverterValues) == ds[i] {
      assert ds[i] in ds;
      RoundTrip(ds[i].fields, FullKeys, RedisConverterValues);
    }
  }
}
