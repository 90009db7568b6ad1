/** ttn-redis-decoder: dispatches the converter's messages by port, turns a
    configuration message into a configuration record, and a data message into a
    bundle of named channels, each reading scaled and merged with its channel
    configuration. */
module RedisDecoder {
  import opened Values
  import opened Catalog
  import opened Codec
  import opened Messages
  import opened ConfigEntries
  import opened Naming

  /** Values Python can do arithmetic on (bool is not modelled). */
  predicate Numeric(v: Value)
  {
    v.VInt? || v.VFloat? || v.VScaled?
  }

  /** `value / divider + offset`: TypeError for a non-number, ZeroDivisionError
      for an integer zero divider (floating-point zero is not modelled). */
  function Scaled(value: Value, divider: Value, offset: Value): (r: Result<Value>)
    ensures r.Ok? <==> Numeric(value) && Numeric(divider) && divider != VInt(0) && Numeric(offset)
  {
    if !Numeric(value) || !Numeric(divider) then Err(TypeError)
    else if divider == VInt(0) then Err(ZeroDivisionError)
    else if !Numeric(offset) then Err(TypeError)
    else Ok(VScaled(value, divider, offset))
  }

  /** `decode_data_entry(chan_data, chan_config)`: `divider` (default 1) and
      `offset` (default 0) are taken out of the configuration, the value is
      scaled, and every remaining configuration key is copied over the data. */
  function DecodeDataEntry(chanData: Dict, chanConfig: Value): Result<Dict>
  {
    if !chanConfig.VDict? then Err(TypeError)
    else
      var cfg := chanConfig.fields;
      var divider := GetOr(cfg, S("divider"), VInt(1));
      var cfg := Remove(cfg, S("divider"));
      var offset := GetOr(cfg, S("offset"), VInt(0));
      var cfg := Remove(cfg, S("offset"));
      match Get(chanData, S("value"))
      case None => Err(KeyError)
      case Some(v) =>
        match Scaled(v, divider, offset)
        case Err(e) => Err(e)
        case Ok(s) => Ok(Update(Set(chanData, S("value"), s), cfg))
  }

  /** One entry of the loop of `decode_data_entries`. An entry without
      `channel_id` is skipped, and so is one whose raw id is already a channel
      NAME; the reading is decoded with its channel configuration when there is
      one and passed on untouched otherwise, and stored under its quantity (or
      the id's string) made unique. */
  function AddReading(channels: Dict, entry: Value, config: Value): Result<Dict>
  {
    if !entry.VDict? then Err(TypeError)
    else
      var chanData := entry.fields;
      match Get(chanData, S("channel_id"))
      case None => Ok(channels)
      case Some(id) =>
        match AsKey(id)
        case None => Err(TypeError)
        case Some(k) =>
          if k in Keys(channels) then Ok(channels)
          else
            match ChannelConfigOf(config, KeyText(k))
            case Err(e) => Err(e)
            case Ok(cc) =>
              match (if cc.None? then Ok(chanData) else DecodeDataEntry(chanData, cc.value))
              case Err(e) => Err(e)
              case Ok(data) =>
                match AsKey(GetOr(data, S("quantity"), VStr(KeyText(k))))
                case None => Err(TypeError)
                case Some(name) => Ok(Set(channels, FreshName(channels, name), VDict(data)))
  }

  function FoldReadings(channels: Dict, entries: seq<Value>, config: Value): Result<Dict>
    decreases |entries|
  {
    if entries == [] then Ok(channels)
    else
      match AddReading(channels, entries[0], config)
      case Err(e) => Err(e)
      case Ok(ch) => FoldReadings(ch, entries[1..], config)
  }

  /** `decode_data_entries(entries, config)`, with `config.data` for config. */
  method DecodeDataEntries(entries: seq<Value>, config: Value) returns (r: Result<Dict>)
    ensures r == FoldReadings([], entries, config)
  {
    var channels: Dict := [];
    var i := 0;
    while i < |entries|
      invariant i <= |entries|
      invariant FoldReadings(channels, entries[i..], config) == FoldReadings([], entries, config)
    {
      assert entries[i..][1..] == entries[i + 1..];
      var entry := entries[i];
      i := i + 1;
      if !entry.VDict? {
        return Err(TypeError);
      }
      var chanData := entry.fields;
      var id := Get(chanData, S("channel_id"));
      if id.None? {
        continue;
      }
      var k := AsKey(id.value);
      if k.None? {
        return Err(TypeError);
      }
      if k.value in Keys(channels) {
        continue;
      }
      var cc := ChannelConfigOf(config, KeyText(k.value));
      if cc.Err? {
        return Err(cc.error);
      }
      var data := chanData;
      if cc.value.Some? {
        var decoded := DecodeDataEntry(chanData, cc.value.value);
        if decoded.Err? {
          return Err(decoded.error);
        }
        data := decoded.value;
      }
      var name := AsKey(GetOr(data, S("quantity"), VStr(KeyText(k.value))));
      if name.None? {
        return Err(TypeError);
      }
      var picked := PickName(channels, name.value);
      channels := Set(channels, picked, VDict(data));
    }
    assert entries[i..] == [];
    return Ok(channels);
  }

  // ---------------------------------------------------------------------------
  // Messages

  /** The records the decoder stores: a configuration, or a bundle of channels
      with the ids of its per-channel measurements. */
  datatype Row =
    | ConfigRow(messageId: string, nodeId: string, timestamp: string, data: Value)
    | BundleRow(messageId: string, nodeId: string, timestamp: string, channels: Dict, measurementIds: seq<string>)

  /** `decode_config_message`: the packet expanded with the decoder's catalog and
      folded into a configuration. */
  function ConfigMessageRow(msg: Uplink, packet: Value): Outcome<Row>
  {
    match DecodeConfigPacket(packet, FullKeys, RedisDecoderValues)
    case Err(e) => Failed(e)
    case Ok(entries) =>
      match DecodeConfigEntries(entries)
      case Err(e) => Failed(e)
      case Ok(config) =>
        var node := MakeTtnNodeId(msg);
        Done(ConfigRow(MakeMsgId(node, msg), node, msg.time, config))
  }

  function MeasurementIds(msgId: string, channels: Dict): (r: seq<string>)
    ensures |r| == |channels| && forall i :: 0 <= i < |channels| ==> r[i] == MakeMeasId(msgId, channels[i].0)
  {
    seq(|channels|, i requires 0 <= i < |channels| => MakeMeasId(msgId, channels[i].0))
  }

  /** `decode_data_message`, given the data of the node's latest configuration
      (None when it has none: the message is dropped). */
  function DataMessageRow(msg: Uplink, packet: Value, latest: Option<Value>): Outcome<Row>
  {
    if latest.None? then Ignored
    else
      match Iterate(packet)
      case Err(e) => Failed(e)
      case Ok(entries) =>
        match FoldReadings([], entries, latest.value)
        case Err(e) => Failed(e)
        case Ok(channels) =>
          var node := MakeTtnNodeId(msg);
          var msgId := MakeMsgId(node, msg);
          Done(BundleRow(msgId, node, msg.time, channels, MeasurementIds(msgId, channels)))
  }

  /** `decode_message`: port 1 carries configurations, port 2 data. */
  function DecodeMessage(msg: Uplink, packet: Value, latest: Option<Value>): Outcome<Row>
  {
    if msg.port == CONFIG_PORT then ConfigMessageRow(msg, packet)
    else if msg.port == DATA_PORT then DataMessageRow(msg, packet, latest)
    else Ignored
  }

  // ---------------------------------------------------------------------------
  // Properties

  /** Port 1 gives a configuration record, port 2 a bundle, any other port
      nothing. */
  lemma Dispatch(msg: Uplink, packet: Value, latest: Option<Value>)
    ensures msg.port !in {CONFIG_PORT, DATA_PORT} ==> DecodeMessage(msg, packet, latest) == Ignored
    ensures DecodeMessage(msg, packet, latest).Done? && msg.port == CONFIG_PORT ==> DecodeMessage(msg, packet, latest).value.ConfigRow?
    ensures DecodeMessage(msg, packet, latest).Done? && msg.port == DATA_PORT ==> DecodeMessage(msg, packet, latest).value.BundleRow?
    ensures msg.port == CONFIG_PORT ==> DecodeMessage(msg, packet, latest) != Ignored
  {
  }

  /** A lookup in a decoded reading: a configuration key other than `divider`
      and `offset` takes precedence; otherwise `value` is the scaled value and
      any other key is the reading's own. */
  lemma DataEntryMerge(chanData: Dict, chanConfig: Value, k: Key)
    requires chanConfig.VDict? && DistinctKeys(chanConfig.fields)
    requires DecodeDataEntry(chanData, chanConfig).Ok?
    ensures var cfg := chanConfig.fields;
      var divider := GetOr(cfg, S("divider"), VInt(1));
      var offset := GetOr(Remove(cfg, S("divider")), S("offset"), VInt(0));
      Get(DecodeDataEntry(chanData, chanConfig).value, k) ==
        if k != S("divider") && k != S("offset") && k in Keys(cfg) then Get(cfg, k)
        else if k == S("value") then Some(VScaled(Get(chanData, S("value")).value, divider, offset))
        else Get(chanData, k)
  {
    var cfg := chanConfig.fields;
    var c1 := Remove(cfg, S("divider"));
    var c2 := Remove(c1, S("offset"));
    RemovePreservesDistinct(cfg, S("divider"));
    RemovePreservesDistinct(c1, S("offset"));
    var divider := GetOr(cfg, S("divider"), VInt(1));
    var offset := GetOr(c1, S("offset"), VInt(0));
    var v := Get(chanData, S("value")).value;
    var d := Set(chanData, S("value"), VScaled(v, divider, offset));
    GetUpdate(d, c2, k);
    GetRemove(c1, S("offset"), k);
    GetRemove(cfg, S("divider"), k);
    GetSet(chanData, S("value"), VScaled(v, divider, offset), k);
  }

  /** How decoding a reading fails: KeyError without a value, TypeError for a
      value that is not a number (the list of the position reading and of the
      extra values), ZeroDivisionError for a zero divider. */
  lemma DataEntryErrors(chanData: Dict, chanConfig: Value)
    requires chanConfig.VDict?
    ensures Get(chanData, S("value")).None? ==> DecodeDataEntry(chanData, chanConfig) == Err(KeyError)
    ensures Get(chanData, S("value")).Some? && Get(chanData, S("value")).value.VList? ==>
      DecodeDataEntry(chanData, chanConfig) == Err(TypeError)
    ensures (Get(chanData, S("value")).Some? && Numeric(Get(chanData, S("value")).value)
      && Get(chanConfig.fields, S("divider")) == Some(VInt(0))) ==>
      DecodeDataEntry(chanData, chanConfig) == Err(ZeroDivisionError)
  {
  }

  /** An entry without `channel_id`, or whose raw id is a channel name
      already, leaves the channels as they are. */
  lemma SkippedReadings(channels: Dict, entry: Value, config: Value)
    requires entry.VDict?
    requires Get(entry.fields, S("channel_id")).None?
      || (Get(entry.fields, S("channel_id")).Some? && AsKey(Get(entry.fields, S("channel_id")).value).Some?
          && AsKey(Get(entry.fields, S("channel_id")).value).value in Keys(channels))
    ensures AddReading(channels, entry, config) == Ok(channels)
  {
  }

  /** A stored reading never overwrites an earlier channel: the old names keep
      their data and the new one is a fresh name, so exactly one channel is
      added. */
  lemma AddReadingKeeps(channels: Dict, entry: Value, config: Value)
    requires DistinctKeys(channels)
    requires AddReading(channels, entry, config).Ok?
    ensures var ch := AddReading(channels, entry, config).value;
      && DistinctKeys(ch)
      && (forall k :: k in Keys(channels) ==> Get(ch, k) == Get(channels, k))
      && (|ch| == |channels| || |ch| == |channels| + 1)
  {
    var ch := AddReading(channels, entry, config).value;
    if ch != channels {
      var id := Get(entry.fields, S("channel_id")).value;
      var k := AsKey(id).value;
      var cc := ChannelConfigOf(config, KeyText(k)).value;
      var data := (if cc.None? then Ok(entry.fields) else DecodeDataEntry(entry.fields, cc.value)).value;
      var name := AsKey(GetOr(data, S("quantity"), VStr(KeyText(k)))).value;
      var picked := FreshName(channels, name);
      SetPreservesDistinct(channels, picked, VDict(data));
      forall k' | k' in Keys(channels) ensures Get(ch, k') == Get(channels, k') {
        GetSet(channels, picked, VDict(data), k');
      }
    }
  }

  /** With an integer channel id and only string names so far, a reading is
      never skipped as a duplicate: it adds exactly one channel. */
  lemma IntegerIdAddsOne(channels: Dict, entry: Value, config: Value)
    requires entry.VDict? && forall k :: k in Keys(channels) ==> k.KStr?
    requires Get(entry.fields, S("channel_id")).Some? && Get(entry.fields, S("channel_id")).value.VInt?
    requires AddReading(channels, entry, config).Ok?
    ensures |AddReading(channels, entry, config).value| == |channels| + 1
  {
  }

  /** The bundle's channel names are distinct, so its string-named
      measurements get distinct ids. */
  lemma {:induction false} FoldKeepsNamesDistinct(channels: Dict, entries: seq<Value>, config: Value)
    requires DistinctKeys(channels)
    requires FoldReadings(channels, entries, config).Ok?
    ensures DistinctKeys(FoldReadings(channels, entries, config).value)
    decreases |entries|
  {
    if entries != [] {
      AddReadingKeeps(channels, entries[0], config);
      FoldKeepsNamesDistinct(AddReading(channels, entries[0], config).value, entries[1..], config);
    }
  }

  /** A data packet that is a dict or a string is iterated like a list of its
      keys or characters: an empty one stores a bundle without channels, like
      the empty list, and any other one fails on its first entry. */
  lemma NonListDataPackets(msg: Uplink, packet: Value, latest: Option<Value>)
    requires latest.Some? && (packet.VDict? || packet.VStr?)
    ensures DataMessageRow(msg, packet, latest) ==
      if Iterate(packet).value == [] then DataMessageRow(msg, VList([]), latest) else Failed(TypeError)
  {
    var entries := Iterate(packet).value;
    if entries != [] {
      IterateScalars(packet);
      assert entries[0] in entries;
    }
  }

  lemma MeasurementIdsDistinct(msg: Uplink, packet: Value, latest: Option<Value>)
    requires DecodeMessage(msg, packet, latest).Done? && DecodeMessage(msg, packet, latest).value.BundleRow?
    requires forall k :: k in Keys(DecodeMessage(msg, packet, latest).value.channels) ==> k.KStr?
    ensures var ids := DecodeMessage(msg, packet, latest).value.measurementIds;
      forall i, j :: 0 <= i < j < |ids| ==> ids[i] != ids[j]
  {
    var row := DecodeMessage(msg, packet, latest).value;
    FoldKeepsNamesDistinct([], Iterate(packet).value, latest.value);
    var ch := row.channels;
    forall i, j | 0 <= i < j < |ch| ensures row.measurementIds[i] != row.measurementIds[j] {
      if row.measurementIds[i] == row.measurementIds[j] {
        assert ch[i].0 in Keys(ch) && ch[j].0 in Keys(ch);
        MeasIdInjective(row.messageId, ch[i].0.s, ch[j].0.s);
      }
    }
  }
}
