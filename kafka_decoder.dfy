/** ttn-kafka-decoder: the same dispatch and configuration decoding as the Redis
    decoder, with its own smaller catalog, and a data path that merges the
    channel configuration without scaling, reuses the previous `channel_id` for
    an entry that has none, and looks the configuration up in a document that
    may be missing. */
module KafkaDecoder {
  import opened Values
  import opened Catalog
  import opened Codec
  import opened Messages
  import opened ConfigEntries
  import opened Naming
  import Redis = RedisDecoder
  import Layout
  import Records
  import KC = KafkaConverter

  /** `decode_data_entry`: every configuration key is copied over the data. */
  function DecodeDataEntry(chanData: Dict, chanConfig: Value): Result<Dict>
  {
    if chanConfig.VDict? then Ok(Update(chanData, chanConfig.fields)) else Err(TypeError)
  }

  /** The `channels` dict of `decode_data_entries` and the last value its
      `chan_id` variable was given (None before the first). */
  datatype Scan = Scan(channels: Dict, lastId: Option<Value>)

  /** `config['channel_config'][str(chan_id)]` on the document the database
      returned, or on None when it found none (a TypeError, not the KeyError
      that is caught). */
  function ChannelConfigIn(config: Option<Dict>, id: string): Result<Option<Value>>
  {
    match config
    case None => Err(TypeError)
    case Some(doc) => ChannelConfigOf(VDict(doc), id)
  }

  /** One entry of the loop of `decode_data_entries`. A missing `channel_id` is
      logged and the id of the previous entry is used again (NameError for the
      first entry); the rest is the Redis decoder's step with this decoder's
      `decode_data_entry`. */
  function AddReading(scan: Scan, entry: Value, config: Option<Dict>): Result<Scan>
  {
    if !entry.VDict? then Err(TypeError)
    else
      var chanData := entry.fields;
      var chanId := match Get(chanData, S("channel_id")) case Some(v) => Some(v) case None => scan.lastId;
      match chanId
      case None => Err(NameError)
      case Some(id) =>
        match AsKey(id)
        case None => Err(TypeError)
        case Some(k) =>
          if k in Keys(scan.channels) then Ok(Scan(scan.channels, chanId))
          else
            match ChannelConfigIn(config, KeyText(k))
            case Err(e) => Err(e)
            case Ok(cc) =>
              match (if cc.None? then Ok(chanData) else DecodeDataEntry(chanData, cc.value))
              case Err(e) => Err(e)
              case Ok(data) =>
                match AsKey(GetOr(data, S("quantity"), VStr(KeyText(k))))
                case None => Err(TypeError)
                case Some(name) => Ok(Scan(Set(scan.channels, FreshName(scan.channels, name), VDict(data)), chanId))
  }

  function FoldReadings(scan: Scan, entries: seq<Value>, config: Option<Dict>): Result<Scan>
    decreases |entries|
  {
    if entries == [] then Ok(scan)
    else
      match AddReading(scan, entries[0], config)
      case Err(e) => Err(e)
      case Ok(s) => FoldReadings(s, entries[1..], config)
  }

  function ScanChannels(entries: seq<Value>, config: Option<Dict>): Result<Dict>
  {
    match FoldReadings(Scan([], None), entries, config)
    case Err(e) => Err(e)
    case Ok(s) => Ok(s.channels)
  }

  /** `decode_data_entries(entries, config)` */
  method DecodeDataEntries(entries: seq<Value>, config: Option<Dict>) returns (r: Result<Dict>)
    ensures r == ScanChannels(entries, config)
  {
    var channels: Dict := [];
    var chanId: Option<Value> := None;
    var i := 0;
    while i < |entries|
      invariant i <= |entries|
      invariant FoldReadings(Scan(channels, chanId), entries[i..], config) == FoldReadings(Scan([], None), entries, config)
    {
      assert entries[i..][1..] == entries[i + 1..];
      var entry := entries[i];
      i := i + 1;
      if !entry.VDict? {
        return Err(TypeError);
      }
      var chanData := entry.fields;
      var found := Get(chanData, S("channel_id"));
      if found.Some? {
        chanId := found;
      }
      if chanId.None? {
        return Err(NameError);
      }
      var k := AsKey(chanId.value);
      if k.None? {
        return Err(TypeError);
      }
      if k.value in Keys(channels) {
        continue;
      }
      var cc := ChannelConfigIn(config, KeyText(k.value));
      if cc.Err? {
        return Err(cc.error);
      }
      var data := chanData;
      if cc.value.Some? {
        var decoded := DecodeDataEntry(chanData, cc.value.value);
        if decoded.Err? {
          return Err(decoded.error);
        }
        data := decoded.value;
      }
      var name := AsKey(GetOr(data, S("quantity"), VStr(KeyText(k.value))));
      if name.None? {
        return Err(TypeError);
      }
      var picked := PickName(channels, name.value);
      channels := Set(channels, picked, VDict(data));
    }
    assert entries[i..] == [];
    return Ok(channels);
  }

  // ---------------------------------------------------------------------------
  // Messages

  /** What `decode_config_message` stores (under `_id`) and returns (the same
      document without `_id`). The `sources` copy of the uplink is not modelled. */
  datatype ConfigDoc = ConfigDoc(stored: Dict, returned: Dict)

  /** The data record, the ids of the per-channel records, and what
      `decode_data_message` returns: the record, or, when there is a channel, the
      last channel's data (the loop over the channels reuses the name `data`). */
  datatype DataRecord = DataRecord(messageId: string, nodeId: string, timestamp: string, configId: Option<Value>, channels: Dict)
  datatype Returned = WholeRecord | LastChannel(data: Value)
  datatype DataDoc = DataDoc(record: DataRecord, measurementIds: seq<string>, returned: Returned)

  datatype Decoded = ConfigOut(config: ConfigDoc) | DataOut(data: DataDoc)

  function ConfigDocOf(msg: Uplink, config: Value): ConfigDoc
    requires config.VDict?
  {
    var stored := Update(config.fields, AddedFields(msg));
    ConfigDoc(stored, Remove(stored, S("_id")))
  }

  /** `decode_config_message` with this decoder's catalog. The write to the
      `config` collection raises InvalidDocument when a key anywhere in the
      document is not a string. */
  function ConfigMessageDoc(msg: Uplink, packet: Value): Outcome<Decoded>
  {
    match DecodeConfigPacket(packet, KafkaDecoderKeys, KafkaDecoderValues)
    case Err(e) => Failed(e)
    case Ok(entries) =>
      match DecodeConfigEntries(entries)
      case Err(e) => Failed(e)
      case Ok(config) =>
        if !config.VDict? then Failed(TypeError)
        else
          var doc := ConfigDocOf(msg, config);
          if StringKeyed(VDict(doc.stored)) then Done(ConfigOut(doc)) else Failed(InvalidDocument)
  }

  /** `config['_id'] if config else None`: an empty document is falsy. */
  function ConfigId(config: Option<Dict>): Result<Option<Value>>
  {
    match config
    case None => Ok(None)
    case Some(doc) =>
      if doc == [] then Ok(None)
      else match Get(doc, S("_id")) case None => Err(KeyError) case Some(v) => Ok(Some(v))
  }

  /** `decode_data_message`, given the node's configuration document the
      database returned (None when it found none). The document written to the
      `data` collection holds the channels and that configuration, so the write
      raises InvalidDocument when a key in either is not a string. */
  function DataMessageDoc(msg: Uplink, packet: Value, config: Option<Dict>): Outcome<Decoded>
  {
    match Iterate(packet)
    case Err(e) => Failed(e)
    case Ok(entries) =>
      match ScanChannels(entries, config)
      case Err(e) => Failed(e)
      case Ok(channels) =>
        match ConfigId(config)
        case Err(e) => Failed(e)
        case Ok(cid) =>
          var node := MakeTtnNodeId(msg);
          var msgId := MakeMsgId(node, msg);
          var record := DataRecord(msgId, node, msg.time, cid, channels);
          var returned := if channels == [] then WholeRecord else LastChannel(channels[|channels| - 1].1);
          if StringKeyed(VDict(channels)) && (config.None? || StringKeyed(VDict(config.value))) then
            Done(DataOut(DataDoc(record, Redis.MeasurementIds(msgId, channels), returned)))
          else Failed(InvalidDocument)
  }

  /** `decode_message`: port 1 carries configurations, port 2 data. */
  function DecodeMessage(msg: Uplink, packet: Value, config: Option<Dict>): Outcome<Decoded>
  {
    if msg.port == CONFIG_PORT then ConfigMessageDoc(msg, packet)
    else if msg.port == DATA_PORT then DataMessageDoc(msg, packet, config)
    else Ignored
  }

  // ---------------------------------------------------------------------------
  // Properties

  lemma Dispatch(msg: Uplink, packet: Value, config: Option<Dict>)
    ensures msg.port !in {CONFIG_PORT, DATA_PORT} ==> DecodeMessage(msg, packet, config) == Ignored
    ensures DecodeMessage(msg, packet, config).Done? && msg.port == CONFIG_PORT ==> DecodeMessage(msg, packet, config).value.ConfigOut?
    ensures DecodeMessage(msg, packet, config).Done? && msg.port == DATA_PORT ==> DecodeMessage(msg, packet, config).value.DataOut?
    ensures msg.port in {CONFIG_PORT, DATA_PORT} ==> DecodeMessage(msg, packet, config) != Ignored
  {
  }

  /** A decoded reading is the reading with every configuration key copied
      over it: nothing is scaled or removed. */
  lemma DataEntryMerge(chanData: Dict, chanConfig: Value, k: Key)
    requires chanConfig.VDict? && DistinctKeys(chanConfig.fields)
    ensures DecodeDataEntry(chanData, chanConfig).Ok?
    ensures Get(DecodeDataEntry(chanData, chanConfig).value, k) ==
      if k in Keys(chanConfig.fields) then Get(chanConfig.fields, k) else Get(chanData, k)
  {
    GetUpdate(chanData, chanConfig.fields, k);
  }

  /** The first entry without `channel_id` raises NameError; a later one is
      handled under the previous entry's id, so it is dropped as a duplicate
      when that id is a channel name already. */
  lemma MissingIdReusesPrevious(scan: Scan, entry: Value, config: Option<Dict>)
    requires entry.VDict? && Get(entry.fields, S("channel_id")).None?
    ensures scan.lastId.None? ==> AddReading(scan, entry, config) == Err(NameError)
    ensures AddReading(scan, entry, config).Ok? ==> AddReading(scan, entry, config).value.lastId == scan.lastId
    ensures (scan.lastId.Some? && AsKey(scan.lastId.value).Some? && AsKey(scan.lastId.value).value in Keys(scan.channels)) ==>
      AddReading(scan, entry, config) == Ok(scan)
  {
  }

  /** Without a configuration document the first reading with a new id fails
      with TypeError. */
  lemma NoConfigFails(scan: Scan, entry: Value)
    requires entry.VDict? && Get(entry.fields, S("channel_id")).Some?
    requires AsKey(Get(entry.fields, S("channel_id")).value).Some?
    requires AsKey(Get(entry.fields, S("channel_id")).value).value !in Keys(scan.channels)
    ensures AddReading(scan, entry, None) == Err(TypeError)
  {
  }

  /** A stored reading never overwrites an earlier channel. */
  lemma AddReadingKeeps(scan: Scan, entry: Value, config: Option<Dict>)
    requires DistinctKeys(scan.channels)
    requires AddReading(scan, entry, config).Ok?
    ensures var ch := AddReading(scan, entry, config).value.channels;
      && DistinctKeys(ch)
      && (forall k :: k in Keys(scan.channels) ==> Get(ch, k) == Get(scan.channels, k))
      && (|ch| == |scan.channels| || |ch| == |scan.channels| + 1)
  {
    var ch := AddReading(scan, entry, config).value.channels;
    if ch != scan.channels {
      var id := (match Get(entry.fields, S("channel_id")) case Some(v) => Some(v) case None => scan.lastId).value;
      var k := AsKey(id).value;
      var cc := ChannelConfigIn(config, KeyText(k)).value;
      var data := (if cc.None? then Ok(entry.fields) else DecodeDataEntry(entry.fields, cc.value)).value;
      var name := AsKey(GetOr(data, S("quantity"), VStr(KeyText(k)))).value;
      var picked := FreshName(scan.channels, name);
      SetPreservesDistinct(scan.channels, picked, VDict(data));
      forall k' | k' in Keys(scan.channels) ensures Get(ch, k') == Get(scan.channels, k') {
        GetSet(scan.channels, picked, VDict(data), k');
      }
    }
  }

  lemma {:induction false} FoldKeepsNamesDistinct(scan: Scan, entries: seq<Value>, config: Option<Dict>)
    requires DistinctKeys(scan.channels)
    requires FoldReadings(scan, entries, config).Ok?
    ensures DistinctKeys(FoldReadings(scan, entries, config).value.channels)
    decreases |entries|
  {
    if entries != [] {
      AddReadingKeeps(scan, entries[0], config);
      FoldKeepsNamesDistinct(AddReading(scan, entries[0], config).value, entries[1..], config);
    }
  }

  /** What a data message returns: the whole record when no channel was
      decoded, otherwise only the data of the last channel. */
  lemma ReturnsLastChannel(msg: Uplink, packet: Value, config: Option<Dict>)
    requires DataMessageDoc(msg, packet, config).Done?
    ensures var doc := DataMessageDoc(msg, packet, config).value.data;
      && DistinctKeys(doc.record.channels)
      && |doc.measurementIds| == |doc.record.channels|
      && (doc.record.channels == [] <==> doc.returned == WholeRecord)
      && (doc.record.channels != [] ==> doc.returned == LastChannel(doc.record.channels[|doc.record.channels| - 1].1))
  {
    FoldKeepsNamesDistinct(Scan([], None), Iterate(packet).value, config);
  }

  /** A data packet that is a dict or a string is iterated like a list of its
      keys or characters: an empty one gives the document of the empty list,
      and any other one fails on its first entry. */
  lemma NonListDataPackets(msg: Uplink, packet: Value, config: Option<Dict>)
    requires packet.VDict? || packet.VStr?
    ensures DataMessageDoc(msg, packet, config) ==
      if Iterate(packet).value == [] then DataMessageDoc(msg, VList([]), config) else Failed(TypeError)
  {
    var entries := Iterate(packet).value;
    if entries != [] {
      IterateScalars(packet);
      assert entries[0] in entries;
    }
  }

  /** This decoder's key table stops at code 5, so the codes 6 and 7 that the
      Kafka converter compacts `measured` and `divider` to pass through as
      integer keys: the expanded record has no `measured` or `divider`. */
  lemma UnlistedCodesStayIntegers(d: Dict)
    ensures var r := DecodeObj(EncodeObj(VDict(d), FullKeyCodes(), KafkaConverterValueCodes()), KafkaDecoderKeys, KafkaDecoderValues).fields;
      && (S("divider") in Keys(d) ==> KInt(7) in Keys(r) && S("divider") !in Keys(r))
      && (S("measured") in Keys(d) ==> KInt(6) in Keys(r) && S("measured") !in Keys(r))
  {
    var codes := FullKeyCodes();
    StrayCodes();
    if S("divider") in Keys(d) {
      StrayCodeSurvives(d, "divider", codes, KafkaConverterValueCodes(), KafkaDecoderKeys, KafkaDecoderValues);
    }
    if S("measured") in Keys(d) {
      StrayCodeSurvives(d, "measured", codes, KafkaConverterValueCodes(), KafkaDecoderKeys, KafkaDecoderValues);
    }
  }

  lemma StrayCodes()
    ensures FullKeyCodes()["divider"] == 7 && FullKeyCodes()["measured"] == 6
    ensures 6 !in KafkaDecoderKeys && 7 !in KafkaDecoderKeys
    ensures forall c :: c in KafkaDecoderKeys ==> KafkaDecoderKeys[c] != "divider" && KafkaDecoderKeys[c] != "measured"
  {
    assert FullKeys[7] == "divider" && FullKeys[6] == "measured";
  }

  /** So a configuration message of the Kafka converter loses its dividers on
      the way: every packet's latitude descriptor has a `divider`, and expanded
      by this decoder it carries the integer key 7 instead. */
  lemma ConverterDividersUnread(pk: Layout.Packet)
    ensures var ds := KC.Descriptors(pk);
      var r := DecodeObj(KC.EncodeConfig(ds)[1], KafkaDecoderKeys, KafkaDecoderValues).fields;
      KInt(7) in Keys(r) && S("divider") !in Keys(r)
  {
    var ds := KC.Descriptors(pk);
    assert ds[1] == Records.Describe(KC.LatitudeChannel);
    var d := Records.DescriptorDict(KC.LatitudeChannel);
    assert S("divider") in Keys(d);
    UnlistedCodesStayIntegers(d);
  }

  /** The stored document holds the message id under `_id` and keeps the
      configuration's `channel_config`; the returned copy lacks only `_id`. */
  lemma StoredConfigDoc(msg: Uplink, config: Value)
    requires config.VDict?
    ensures var doc := ConfigDocOf(msg, config);
      && Keys(doc.returned) == Keys(doc.stored) - {S("_id")}
      && Get(doc.stored, S("_id")) == Some(VStr(MakeMsgId(MakeTtnNodeId(msg), msg)))
      && Get(doc.stored, S("channel_config")) == Get(config.fields, S("channel_config"))
  {
    var extra := AddedFields(msg);
    assert "_id"[0] != "node_id"[0] && "_id"[0] != "timestamp"[0] && "node_id"[0] != "timestamp"[0];
    assert DistinctKeys(extra);
    assert S("channel_config") !in Keys(extra) by {
      assert "channel_config"[0] != "_id"[0] && "channel_config"[0] != "node_id"[0] && "channel_config"[0] != "timestamp"[0];
      NotInKeys(extra, S("channel_config"));
    }
    GetUpdate(config.fields, extra, S("_id"));
    GetUpdate(config.fields, extra, S("channel_config"));
  }

  /** The document a configuration message stores is the one a later data
      message looks its channel configurations up in: `channel_config` there is
      the dict the entries were folded into. */
  lemma ConfigDocServesLookups(msg: Uplink, packet: Value, id: string)
    requires DecodeMessage(msg, packet, None).Done? && msg.port == CONFIG_PORT
    ensures var doc := DecodeMessage(msg, packet, None).value.config;
      var config := DecodeConfigEntries(DecodeConfigPacket(packet, KafkaDecoderKeys, KafkaDecoderValues).value).value;
      && Keys(doc.returned) == Keys(doc.stored) - {S("_id")}
      && Get(doc.stored, S("_id")) == Some(VStr(MakeMsgId(MakeTtnNodeId(msg), msg)))
      && ChannelConfigIn(Some(doc.stored), id) == ChannelConfigOf(config, id)
  {
    var entries := DecodeConfigPacket(packet, KafkaDecoderKeys, KafkaDecoderValues).value;
    var config := DecodeConfigEntries(entries).value;
    assert DecodeMessage(msg, packet, None).value.config == ConfigDocOf(msg, config);
    StoredConfigDoc(msg, config);
  }

  /** MongoDB stores a configuration exactly when every key in the decoded
      configuration is a string; otherwise the write raises InvalidDocument
      and nothing is stored. */
  lemma ConfigStoredOnlyWithStringKeys(msg: Uplink, packet: Value)
    requires DecodeConfigPacket(packet, KafkaDecoderKeys, KafkaDecoderValues).Ok?
    requires DecodeConfigEntries(DecodeConfigPacket(packet, KafkaDecoderKeys, KafkaDecoderValues).value).Ok?
    ensures var config := DecodeConfigEntries(DecodeConfigPacket(packet, KafkaDecoderKeys, KafkaDecoderValues).value).value;
      && (ConfigMessageDoc(msg, packet).Done? <==> StringKeyed(config))
      && (!StringKeyed(config) ==> ConfigMessageDoc(msg, packet) == Failed(InvalidDocument))
  {
    var entries := DecodeConfigPacket(packet, KafkaDecoderKeys, KafkaDecoderValues).value;
    var st := Fold(ConfigState([], []), entries).value;
    assert DecodeConfigEntries(entries).value == ConfigMessage(st);
    StoredDocStringKeyed(msg, st);
  }

  /** The keys `decode_config_message` adds are strings with string values,
      so the document is string-keyed exactly when the configuration is. */
  lemma StoredDocStringKeyed(msg: Uplink, st: ConfigState)
    ensures StringKeyed(VDict(ConfigDocOf(msg, ConfigMessage(st)).stored)) <==> StringKeyed(ConfigMessage(st))
  {
    var config := ConfigMessage(st);
    var extra := AddedFields(msg);
    AddedFieldsAbsent(msg, st);
    UpdateAbsent(config.fields, extra);
    StringKeyedConcat(config.fields, extra);
  }

  function AddedFields(msg: Uplink): Dict
  {
    var node := MakeTtnNodeId(msg);
    [(S("_id"), VStr(MakeMsgId(node, msg))), (S("node_id"), VStr(node)), (S("timestamp"), VStr(msg.time))]
  }

  lemma AddedFieldsAbsent(msg: Uplink, st: ConfigState)
    ensures DistinctKeys(AddedFields(msg)) && StringKeyed(VDict(AddedFields(msg)))
    ensures Keys(ConfigMessage(st).fields) !! Keys(AddedFields(msg))
  {
    var config := ConfigMessage(st);
    var extra := AddedFields(msg);
    assert "_id"[0] != "node_id"[0] && "_id"[0] != "timestamp"[0] && "node_id"[0] != "timestamp"[0];
    assert config.fields[1..][1..] == [];
    assert Keys(config.fields[1..]) == {S("channel_config")};
    assert Keys(config.fields) == {S("node_config"), S("channel_config")};
    assert "node_config"[5] != "node_id"[5] && "node_config"[0] != "_id"[0] && "node_config"[0] != "timestamp"[0];
    assert "channel_config"[0] != "_id"[0] && "channel_config"[0] != "node_id"[0] && "channel_config"[0] != "timestamp"[0];
    NotInKeys(extra, S("node_config"));
    NotInKeys(extra, S("channel_config"));
  }

  /** A channel configuration with a key that is not a string, such as the
      integer 7 of an unread `divider`, makes the whole configuration message
      fail to be stored. */
  lemma UnstorableChannelRefused(msg: Uplink, packet: Value, id: string)
    requires DecodeConfigPacket(packet, KafkaDecoderKeys, KafkaDecoderValues).Ok?
    requires DecodeConfigEntries(DecodeConfigPacket(packet, KafkaDecoderKeys, KafkaDecoderValues).value).Ok?
    requires var config := DecodeConfigEntries(DecodeConfigPacket(packet, KafkaDecoderKeys, KafkaDecoderValues).value).value;
      ChannelConfigOf(config, id).Ok? && ChannelConfigOf(config, id).value.Some? && !StringKeyed(ChannelConfigOf(config, id).value.value)
    ensures ConfigMessageDoc(msg, packet) == Failed(InvalidDocument)
  {
    var entries := DecodeConfigPacket(packet, KafkaDecoderKeys, KafkaDecoderValues).value;
    var config := DecodeConfigEntries(entries).value;
    var cc := Get(config.fields, S("channel_config")).value;
    var i := GetWitness(cc.fields, S(id));
    assert !StringKeyed(cc);
    var j := GetWitness(config.fields, S("channel_config"));
    assert !StringKeyed(config);
    ConfigStoredOnlyWithStringKeys(msg, packet);
  }

  /** The latitude descriptor of every Kafka converter configuration, expanded
      by this decoder, has the integer key 7, so no channel configuration made
      from it can be stored. */
  lemma ConverterDividersUnstorable(pk: Layout.Packet)
    ensures !StringKeyed(DecodeObj(KC.EncodeConfig(KC.Descriptors(pk))[1], KafkaDecoderKeys, KafkaDecoderValues))
  {
    var r := DecodeObj(KC.EncodeConfig(KC.Descriptors(pk))[1], KafkaDecoderKeys, KafkaDecoderValues);
    ConverterDividersUnread(pk);
    IntegerKeyUnstorable(r.fields, 7);
  }

  /** A data document is stored exactly when the decoded channels and the
      configuration document it embeds have only string keys; a channel named
      by an integer `quantity` makes the write raise InvalidDocument. */
  lemma DataStoredOnlyWithStringKeys(msg: Uplink, packet: Value, config: Option<Dict>)
    requires Iterate(packet).Ok? && ScanChannels(Iterate(packet).value, config).Ok? && ConfigId(config).Ok?
    ensures var channels := ScanChannels(Iterate(packet).value, config).value;
      && (DataMessageDoc(msg, packet, config).Done? <==>
          StringKeyed(VDict(channels)) && (config.Some? ==> StringKeyed(VDict(config.value))))
      && (!DataMessageDoc(msg, packet, config).Done? ==> DataMessageDoc(msg, packet, config) == Failed(InvalidDocument))
      && (forall i :: KInt(i) in Keys(channels) ==> DataMessageDoc(msg, packet, config) == Failed(InvalidDocument))
  {
    var channels := ScanChannels(Iterate(packet).value, config).value;
    forall i | KInt(i) in Keys(channels) ensures DataMessageDoc(msg, packet, config) == Failed(InvalidDocument) {
      IntegerKeyUnstorable(channels, i);
    }
  }

  // ---------------------------------------------------------------------------
  // Agreement with the Redis decoder

  predicate AllHaveIds(entries: seq<Value>)
  {
    forall i :: 0 <= i < |entries| ==> entries[i].VDict? && Get(entries[i].fields, S("channel_id")).Some?
  }

  /** When every entry carries its `channel_id` and the configuration has no
      `channel_config`, both decoders decode the same channels from the same
      entries. */
  lemma {:induction false} AgreesWithRedisDecoder(scan: Scan, entries: seq<Value>, doc: Dict)
    requires AllHaveIds(entries) && Get(doc, S("channel_config")).None?
    ensures FoldReadings(scan, entries, Some(doc)).Ok? <==> Redis.FoldReadings(scan.channels, entries, VDict(doc)).Ok?
    ensures FoldReadings(scan, entries, Some(doc)).Ok? ==>
      FoldReadings(scan, entries, Some(doc)).value.channels == Redis.FoldReadings(scan.channels, entries, VDict(doc)).value
    decreases |entries|
  {
    if entries != [] {
      var e := entries[0];
      assert e.VDict? && Get(e.fields, S("channel_id")).Some?;
      var r := Redis.AddReading(scan.channels, e, VDict(doc));
      var k := AddReading(scan, e, Some(doc));
      assert k.Ok? <==> r.Ok?;
      if k.Ok? {
        assert k.value.channels == r.value;
        assert AllHaveIds(entries[1..]) by {
          forall i | 0 <= i < |entries[1..]| ensures entries[1..][i].VDict? && Get(entries[1..][i].fields, S("channel_id")).Some? {
            assert entries[1..][i] == entries[i + 1];
          }
        }
        AgreesWithRedisDecoder(k.value, entries[1..], doc);
      }
    }
  }
}
