/** ttn-kafka-converter: the Kafka generation of the converter. It checks the
    payload length per port, then reads each optional value when enough bits
    remain for it, builds the channel descriptors with its own channel
    numbering, and produces a configuration message and a data message. */
module KafkaConverter {
  import opened Values
  import opened Bits
  import opened Layout
  import opened Catalog
  import opened Codec
  import opened Messages
  import opened Counters
  import opened Records
  import Redis = RedisConverter

  /** The length check of `process_data`: ports 10 (9 to 11 bytes), 11 (11, 12,
      15 or 16 bytes) and 12 (13, 14, 17 or 18 bytes); every other port is
      ignored. */
  predicate LengthOk(port: int, length: int)
  {
    if port == 10 then !(length < 9 || length > 11)
    else if port == 11 then !(length < 11 || 12 < length < 15 || length > 16)
    else if port == 12 then !(length < 13 || 14 < length < 17 || length > 18)
    else false
  }

  /** The readings: latitude and longitude (`int:24` each), temperature and
      humidity (`int:12`), then supply, lux, the two particulate-matter sizes
      and battery when present. */
  function Fields(p: Presence): seq<Field>
  {
    CoreFields + SupplyFields(p) + LuxFields(p) + PmFields(p) + BatteryFields(p)
  }

  const CoreFields := [Field(0, Signed(24)), Field(1, Signed(24)), Field(2, Signed(12)), Field(3, Signed(12))]
  const SupplyRun := [Field(4, Unsigned(8))]
  const LuxRun := [Field(6, Unsigned(16))]
  const PmRun := [Field(7, Unsigned(16)), Field(8, Unsigned(16))]
  const BatteryRun := [Field(5, Unsigned(8))]
  function SupplyFields(p: Presence): seq<Field> { if p.supply then SupplyRun else [] }
  function LuxFields(p: Presence): seq<Field> { if p.lux then LuxRun else [] }
  function PmFields(p: Presence): seq<Field> { if p.pm then PmRun else [] }
  function BatteryFields(p: Presence): seq<Field> { if p.battery then BatteryRun else [] }

  /** Which optional values are read when `bits` bits follow the firmware
      version: supply on ports 11 and 12 or when a byte remains after the
      position, temperature and humidity; lux on port 12; particulate matter
      when four bytes remain; battery when a byte remains. */
  function Gates(port: int, bits: int): Presence
  {
    var rem := bits - 72;
    var supply := port >= 11 || rem >= 8;
    var rem := if supply then rem - 8 else rem;
    var lux := port == 12;
    var rem := if lux then rem - 16 else rem;
    var pm := rem >= 32;
    var rem := if pm then rem - 32 else rem;
    Presence(port != 10, supply, lux, pm, rem >= 8, false)
  }

  /** What `process_data` reads from a payload on a port. */
  function Decode(port: int, payload: seq<byte>): Outcome<Packet>
  {
    if !LengthOk(port, |payload|) then Ignored
    else
      var start := if port != 10 then 8 else 0;
      if start > 8 * |payload| then Failed(ReadError)
      else
        var p := Gates(port, 8 * |payload| - start);
        var fw := if port != 10 then Some(UintAt(payload, 0, 8)) else None;
        match ReadFields(payload, start, Fields(p))
        case None => Failed(ReadError)
        case Some(data) => Done(Packet(port, p, fw, data))
  }

  lemma SegmentWidths(p: Presence)
    ensures TotalWidth(CoreFields) == 72
    ensures TotalWidth(SupplyFields(p)) == if p.supply then 8 else 0
    ensures TotalWidth(LuxFields(p)) == if p.lux then 16 else 0
    ensures TotalWidth(PmFields(p)) == if p.pm then 32 else 0
    ensures TotalWidth(BatteryFields(p)) == if p.battery then 8 else 0
  {
    var a, b := [Field(0, Signed(24)), Field(1, Signed(24))], [Field(2, Signed(12)), Field(3, Signed(12))];
    assert CoreFields == a + b;
    WidthOfTwo(Field(0, Signed(24)), Field(1, Signed(24)));
    WidthOfTwo(Field(2, Signed(12)), Field(3, Signed(12)));
    TotalWidthAppend(a, b);
    WidthOfOne(Field(4, Unsigned(8)));
    WidthOfOne(Field(6, Unsigned(16)));
    WidthOfTwo(Field(7, Unsigned(16)), Field(8, Unsigned(16)));
    WidthOfOne(Field(5, Unsigned(8)));
  }

  /** The readings take as many bits as the Redis converter's for the same
      optional values: the layouts differ only in their channel numbers. */
  lemma FieldsWidth(p: Presence)
    ensures TotalWidth(Fields(p)) == TotalWidth(Redis.Fields(p))
  {
    Redis.FieldsWidth(p);
    SegmentWidths(p);
    var s2 := CoreFields + SupplyFields(p);
    var s3 := s2 + LuxFields(p);
    var s4 := s3 + PmFields(p);
    TotalWidthAppend(CoreFields, SupplyFields(p));
    TotalWidthAppend(s2, LuxFields(p));
    TotalWidthAppend(s3, PmFields(p));
    TotalWidthAppend(s4, BatteryFields(p));
  }

  /** One optional segment of the readings: read when the gate is open, with
      None when the payload ends inside it. */
  method ReadSegment(stream: BitStream, start: nat, data: seq<Value>, ghost done: seq<Field>, open: bool, segment: seq<Field>)
    returns (r: Option<seq<Value>>)
    requires stream.Valid() && stream.pos == start + TotalWidth(done)
    requires ReadFields(stream.bytes, start, done) == Some(data)
    modifies stream
    ensures stream.Valid()
    ensures r == ReadFields(stream.bytes, start, done + if open then segment else [])
    ensures r.Some? ==> stream.pos == start + TotalWidth(done + if open then segment else [])
  {
    if open {
      r := ReadRun(stream, start, data, done, segment);
    } else {
      assert done + [] == done;
      r := Some(data);
    }
  }

  /** The prefixes of the readings, up to and including each optional segment. */
  function Upto(p: Presence, k: nat): seq<Field>
  {
    if k == 0 then CoreFields
    else if k == 1 then CoreFields + SupplyFields(p)
    else if k == 2 then Upto(p, 1) + LuxFields(p)
    else if k == 3 then Upto(p, 2) + PmFields(p)
    else Upto(p, 3) + BatteryFields(p)
  }

  /** Each gate of Gates is the test `process_data` makes on the bits left
      after the readings before it. */
  lemma GatesAreRemainders(port: int, bits: int)
    ensures var p := Gates(port, bits);
      && Upto(p, 4) == Fields(p)
      && p.supply == (port >= 11 || bits - TotalWidth(Upto(p, 0)) >= 8)
      && p.lux == (port == 12)
      && p.pm == (bits - TotalWidth(Upto(p, 2)) >= 32)
      && p.battery == (bits - TotalWidth(Upto(p, 3)) >= 8)
  {
    var p := Gates(port, bits);
    SegmentWidths(p);
    TotalWidthAppend(CoreFields, SupplyFields(p));
    TotalWidthAppend(Upto(p, 1), LuxFields(p));
    TotalWidthAppend(Upto(p, 2), PmFields(p));
  }

  /** A reading that does not fit makes the whole run of readings fail. */
  lemma OverrunFrom(bytes: seq<byte>, start: nat, p: Presence, k: nat)
    requires start <= 8 * |bytes| && k <= 4
    requires ReadFields(bytes, start, Upto(p, k)) == None
    ensures ReadFields(bytes, start, Upto(p, 4)) == None
    decreases 4 - k
  {
    if k < 4 {
      var next := match k case 0 => SupplyFields(p) case 1 => LuxFields(p) case 2 => PmFields(p) case _ => BatteryFields(p);
      assert Upto(p, k + 1) == Upto(p, k) + next;
      PrefixOverrun(bytes, start, Upto(p, k), next);
      OverrunFrom(bytes, start, p, k + 1);
    }
  }

  /** The readings of `process_data`, each optional one behind its gate on the
      bits left in the stream. */
  method ReadReadings(stream: BitStream, port: int) returns (r: Option<seq<Value>>)
    requires stream.Valid()
    modifies stream
    ensures stream.Valid()
    ensures r == ReadFields(stream.bytes, old(stream.pos), Fields(Gates(port, stream.Len() - old(stream.pos))))
  {
    var start := stream.pos;
    ghost var p := Gates(port, stream.Len() - start);
    GatesAreRemainders(port, stream.Len() - start);
    assert [] + CoreFields == Upto(p, 0);
    var data := ReadRun(stream, start, [], [], CoreFields);
    if data.None? {
      OverrunFrom(stream.bytes, start, p, 0);
      return None;
    }
    data := ReadSegment(stream, start, data.value, Upto(p, 0), port >= 11 || stream.Remaining() >= 8, SupplyRun);
    if data.None? {
      OverrunFrom(stream.bytes, start, p, 1);
      return None;
    }
    r := ReadTail(stream, start, data.value, port);
  }

  /** Lux, particulate matter and battery, after the supply. */
  method ReadTail(stream: BitStream, start: nat, data: seq<Value>, port: int) returns (r: Option<seq<Value>>)
    requires stream.Valid() && start <= stream.Len()
    requires var p := Gates(port, stream.Len() - start);
      stream.pos == start + TotalWidth(Upto(p, 1)) && ReadFields(stream.bytes, start, Upto(p, 1)) == Some(data)
    modifies stream
    ensures stream.Valid()
    ensures r == ReadFields(stream.bytes, start, Fields(Gates(port, stream.Len() - start)))
  {
    ghost var p := Gates(port, stream.Len() - start);
    GatesAreRemainders(port, stream.Len() - start);
    var more := ReadSegment(stream, start, data, Upto(p, 1), port == 12, LuxRun);
    if more.None? {
      OverrunFrom(stream.bytes, start, p, 2);
      return None;
    }
    more := ReadSegment(stream, start, more.value, Upto(p, 2), stream.Remaining() >= 32, PmRun);
    if more.None? {
      OverrunFrom(stream.bytes, start, p, 3);
      return None;
    }
    r := ReadSegment(stream, start, more.value, Upto(p, 3), stream.Remaining() >= 8, BatteryRun);
  }

  /** The port and length tests at the start of `process_data`. */
  method CheckLength(port: int, length: int) returns (ok: bool)
    ensures ok == LengthOk(port, length)
  {
    ok := true;
    if port == 10 {
      if length < 9 || length > 11 {
        ok := false;
      }
    } else if port == 11 {
      if length < 11 || 12 < length < 15 || length > 16 {
        ok := false;
      }
    } else if port == 12 {
      if length < 13 || 14 < length < 17 || length > 18 {
        ok := false;
      }
    } else {
      ok := false;
    }
  }

  /** The reads of `process_data`, from the length check to the battery. */
  method DecodePayload(port: int, payload: seq<byte>) returns (r: Outcome<Packet>)
    ensures r == Decode(port, payload)
  {
    var length := |payload|;
    var ok := CheckLength(port, length);
    if !ok {
      return Ignored;
    }
    var stream := new BitStream(payload);
    var firmware: Option<nat> := None;
    if port != 10 {
      var v := stream.ReadUint(8);
      if v.None? {
        return Failed(ReadError);
      }
      firmware := Some(v.value);
    }
    var readings := ReadReadings(stream, port);
    if readings.None? {
      return Failed(ReadError);
    }
    return Done(Packet(port, Gates(port, 8 * length - (if port != 10 then 8 else 0)), firmware, readings.value));
  }

  // ---------------------------------------------------------------------------
  // Channel descriptors

  const LatitudeChannel := Channel(0, Some("latitude"), Some("degrees"), None, None, Some(32768), None)
  const LongitudeChannel := Channel(1, Some("longitude"), Some("degree"), None, None, Some(32768), None)
  const TemperatureChannel := Channel(2, Some("temperature"), Some("degree_celsius"), None, None, Some(16), None)
  const HumidityChannel := Channel(3, Some("humidity"), Some("percent_rh"), None, None, Some(16), None)
  const SupplyChannel := Channel(4, Some("voltage"), Some("volt"), Some("supply"), None, Some(100), Some(1))
  const BatteryChannel := Channel(5, Some("voltage"), Some("volt"), Some("battery"), None, Some(50), Some(1))
  const LuxChannel := Channel(6, Some("ambient_light"), Some("lux"), None, None, None, None)
  const Pm25Channel := Channel(7, Some("particulate_matter"), Some("ug_per_cubic_meter"), None, Some(VFloat("2.5")), None, None)
  const Pm10Channel := Channel(8, Some("particulate_matter"), Some("ug_per_cubic_meter"), None, Some(VInt(10)), None, None)

  /** The channels a packet describes, in the order of its data records. */
  function Channels(p: Presence): seq<Channel>
  {
    CoreChannels + SupplyChannels(p) + LuxChannels(p) + PmChannels(p) + BatteryChannels(p)
  }

  const CoreChannels := [LatitudeChannel, LongitudeChannel, TemperatureChannel, HumidityChannel]
  function SupplyChannels(p: Presence): seq<Channel> { if p.supply then [SupplyChannel] else [] }
  function LuxChannels(p: Presence): seq<Channel> { if p.lux then [LuxChannel] else [] }
  function PmChannels(p: Presence): seq<Channel> { if p.pm then [Pm25Channel, Pm10Channel] else [] }
  function BatteryChannels(p: Presence): seq<Channel> { if p.battery then [BatteryChannel] else [] }

  /** The configuration list `config` of a packet. */
  function Descriptors(pk: Packet): seq<Value>
  {
    ConfigList(pk.firmware, Channels(pk.presence))
  }

  /** `list(map(encode, config))`: each descriptor compacted with this
      converter's catalog. */
  function EncodeConfig(config: seq<Value>): (r: seq<Value>)
    ensures |r| == |config|
  {
    seq(|config|, i requires 0 <= i < |config| => EncodeObj(config[i], FullKeyCodes(), KafkaConverterValueCodes()))
  }

  // ---------------------------------------------------------------------------
  // The converter

  /** The messages one packet produces and the counter map after it; a
      configuration message goes first when GenerateConfigAsWritten holds: for
      a new node, and whenever the counter went up. */
  function Step(last: map<string, int>, msg: Uplink, payload: seq<byte>): (Outcome<seq<Envelope>>, map<string, int>)
  {
    match Decode(msg.port, payload)
    case Ignored => (Ignored, last)
    case Failed(e) => (Failed(e), last)
    case Done(pk) =>
      var node := MakeTtnNodeId(msg);
      var config :=
        if GenerateConfigAsWritten(last, node, msg.counter)
        then [ProduceMessage(msg, EncodeConfig(Descriptors(pk)), CONFIG_PORT)] else [];
      (Done(config + [ProduceMessage(msg, pk.data, DATA_PORT)]), last[node := msg.counter])
  }

  class Converter {
    /** `last_counter_seen`: node id -> last frame counter */
    var lastCounterSeen: map<string, int>

    constructor()
      ensures lastCounterSeen == map[]
    {
      lastCounterSeen := map[];
    }

    /** `process_data(msg_obj, payload)`, the messages it produces in order. */
    method ProcessData(msg: Uplink, payload: seq<byte>) returns (r: Outcome<seq<Envelope>>)
      modifies this
      ensures (r, lastCounterSeen) == Step(old(lastCounterSeen), msg, payload)
    {
      var decoded := DecodePayload(msg.port, payload);
      if !decoded.Done? {
        r := if decoded.Ignored? then Ignored else Failed(decoded.error);
        return;
      }
      var pk := decoded.value;
      var nodeId := MakeTtnNodeId(msg);
      var generate := false;
      if nodeId in lastCounterSeen {
        if lastCounterSeen[nodeId] < msg.counter {
          generate := true;
        }
      } else {
        generate := true;
      }
      lastCounterSeen := lastCounterSeen[nodeId := msg.counter];
      var out: seq<Envelope> := [];
      var obj := msg;
      if generate {
        var config := EncodeConfig(Descriptors(pk));
        var e := ProduceMessage(obj, config, CONFIG_PORT);
        out := [e];
        obj := e.msg;
      }
      ProduceOverwrites(msg, [], pk.data, CONFIG_PORT, DATA_PORT);
      out := out + [ProduceMessage(obj, pk.data, DATA_PORT)];
      return Done(out);
    }
  }

  // ---------------------------------------------------------------------------
  // Properties

  /** The length check accepts exactly the lengths of the fixed layouts. */
  lemma LengthOkIsFixedLayout(port: int, length: int)
    ensures LengthOk(port, length) <==> FixedPresence(port, length).Some?
  {
  }

  /** Reading each optional value when enough bits remain picks out the fixed
      layout of the packet's length. */
  lemma GatesMatchLayout(port: int, length: int)
    requires LengthOk(port, length)
    ensures Gates(port, 8 * length - (if port != 10 then 8 else 0)) == FixedPresence(port, length).value
  {
  }

  /** A packet that passes the length check is always read to its last bit: it
      never fails, and every bit of it is a reading or the firmware version. */
  lemma AcceptedPacketsDecode(port: int, payload: seq<byte>)
    ensures Decode(port, payload) != Ignored <==> LengthOk(port, |payload|)
    ensures !Decode(port, payload).Failed?
    ensures Decode(port, payload).Done? ==>
      var p := Decode(port, payload).value.presence;
      && p == FixedPresence(port, |payload|).value
      && (if p.firmware then 8 else 0) + TotalWidth(Fields(p)) == 8 * |payload|
  {
    if LengthOk(port, |payload|) {
      GatesMatchLayout(port, |payload|);
      FieldsWidth(FixedPresence(port, |payload|).value);
      Redis.FieldsWidth(FixedPresence(port, |payload|).value);
    }
  }

  /** On ports 10 to 12 both converter generations accept the same packets and
      find the same optional values in them. */
  lemma AgreesWithRedisConverter(port: int, payload: seq<byte>)
    requires port in {10, 11, 12}
    ensures Decode(port, payload).Done? <==> Redis.Decode(port, payload).Done?
    ensures Decode(port, payload).Done? ==>
      && Decode(port, payload).value.presence == Redis.Decode(port, payload).value.presence
      && Decode(port, payload).value.firmware == Redis.Decode(port, payload).value.firmware
  {
    AcceptedPacketsDecode(port, payload);
    Redis.IgnoredPackets(port, payload);
    if LengthOk(port, |payload|) {
      Redis.FixedPortsDecode(port, payload);
    }
  }

  lemma CoreIds()
    ensures Ids(CoreChannels) == FieldChannels(CoreFields)
  {
  }

  lemma SegmentIds(p: Presence)
    ensures Ids(SupplyChannels(p)) == FieldChannels(SupplyFields(p))
    ensures Ids(LuxChannels(p)) == FieldChannels(LuxFields(p))
    ensures Ids(PmChannels(p)) == FieldChannels(PmFields(p))
    ensures Ids(BatteryChannels(p)) == FieldChannels(BatteryFields(p))
  {
  }

  /** The channels described are those read, in the same order. */
  lemma ChannelIds(p: Presence)
    ensures Ids(Channels(p)) == FieldChannels(Fields(p))
  {
    CoreIds();
    SegmentIds(p);
    var c1 := CoreChannels + SupplyChannels(p);
    var c2 := c1 + LuxChannels(p);
    var c3 := c2 + PmChannels(p);
    var f1 := CoreFields + SupplyFields(p);
    var f2 := f1 + LuxFields(p);
    var f3 := f2 + PmFields(p);
    IdsAppend(CoreChannels, SupplyChannels(p));
    FieldChannelsAppend(CoreFields, SupplyFields(p));
    assert Ids(c1) == FieldChannels(f1);
    IdsAppend(c1, LuxChannels(p));
    FieldChannelsAppend(f1, LuxFields(p));
    assert Ids(c2) == FieldChannels(f2);
    IdsAppend(c2, PmChannels(p));
    FieldChannelsAppend(f2, PmFields(p));
    assert Ids(c3) == FieldChannels(f3);
    IdsAppend(c3, BatteryChannels(p));
    FieldChannelsAppend(f3, BatteryFields(p));
  }

  /** The configuration and the data of a packet line up: after the node
      descriptor, the i-th descriptor describes the channel of the i-th data
      record; the node descriptor has no channel id. */
  lemma DescriptorsMatchData(port: int, payload: seq<byte>)
    requires Decode(port, payload).Done?
    ensures var pk := Decode(port, payload).value;
      var ds := Descriptors(pk);
      && |ds| == |pk.data| + 1
      && ChannelId(ds[0]) == None
      && forall i :: 0 <= i < |pk.data| ==> ChannelId(ds[i + 1]) == ChannelId(pk.data[i]) != None
  {
    var pk := Decode(port, payload).value;
    var start := if port != 10 then 8 else 0;
    var fs := Fields(pk.presence);
    ReadChannels(payload, start, fs);
    ConfigListChannels(pk.firmware, Channels(pk.presence));
    ChannelIds(pk.presence);
    var ds := Descriptors(pk);
    forall i | 0 <= i < |pk.data| ensures ChannelId(ds[i + 1]) == ChannelId(pk.data[i]) {
      assert ds[1..][i] == ds[i + 1];
    }
  }

  /** A dropped packet produces nothing and leaves the counter map as it was. */
  lemma RejectedPacketKeepsState(last: map<string, int>, msg: Uplink, payload: seq<byte>)
    requires !Decode(msg.port, payload).Done?
    ensures Step(last, msg, payload).0 == Ignored
    ensures Step(last, msg, payload).1 == last
  {
    AcceptedPacketsDecode(msg.port, payload);
  }

  /** A decoded packet records its counter for its node only, and produces the
      data message last, preceded by a configuration message exactly when the
      node is new or its counter went up; a rebooted node gets none. */
  lemma AcceptedPacketMessages(last: map<string, int>, msg: Uplink, payload: seq<byte>)
    requires Decode(msg.port, payload).Done?
    ensures var (out, last') := Step(last, msg, payload);
      var node := MakeTtnNodeId(msg);
      var pk := Decode(msg.port, payload).value;
      && last' == last[node := msg.counter]
      && out.Done?
      && |out.value| == (if node !in last || last[node] < msg.counter then 2 else 1)
      && out.value[|out.value| - 1].msg == msg.(port := DATA_PORT)
      && out.value[|out.value| - 1].payload == pk.data
      && (|out.value| == 2 ==>
            out.value[0].msg == msg.(port := CONFIG_PORT) && |out.value[0].payload| == |pk.data| + 1)
  {
    DescriptorsMatchData(msg.port, payload);
  }

  /** The configuration message is lossless under the catalog it was compacted
      with. */
  lemma ConfigRoundTrip(pk: Packet)
    ensures var ds := Descriptors(pk);
      var msg := EncodeConfig(ds);
      forall i :: 0 <= i < |ds| ==> DecodeObj(msg[i], FullKeys, KafkaConverterValues) == ds[i]
  {
    var ds := Descriptors(pk);
    ConverterTableNames();
    ConfigListRestorable(pk.firmware, Channels(pk.presence), KafkaConverterValues);
    FullKeysInjective();
    KafkaConverterValuesInjective();
    forall i | 0 <= i < |ds| ensures DecodeObj(EncodeConfig(ds)[i], FullKeys, KafkaConverterValues) == ds[i] {
      assert ds[i] in ds;
      RoundTrip(ds[i].fields, FullKeys, KafkaConverterValues);
    }
  }
}
