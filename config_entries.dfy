/** The configuration side shared by both decoders (their `decode_config_packet`
    and `decode_config_entries` are the same code): expanding a configuration
    packet, and folding its entries into the node configuration and the
    per-channel configurations. */
module ConfigEntries {
  import opened Values
  import opened Catalog
  import opened Codec

  /** `decode_config_packet`: each element the packet iterates over, expanded
      with the decoder's catalog. A packet that is not a list is only warned
      about: a dict gives its keys and a string its characters, and a number
      cannot be iterated. */
  function DecodeConfigPacket(packet: Value, keys: KeyTable, values: ValueTables): (r: Result<seq<Value>>)
    ensures r.Ok? <==> Iterate(packet).Ok?
    ensures r.Ok? ==> |r.value| == |Iterate(packet).value|
  {
    match Iterate(packet)
    case Err(e) => Err(e)
    case Ok(items) => Ok(seq(|items|, i requires 0 <= i < |items| => DecodeObj(items[i], keys, values)))
  }

  /** The two dicts `decode_config_entries` builds. */
  datatype ConfigState = ConfigState(node: Dict, channels: Dict)

  /** One entry of the loop of `decode_config_entries`: a node entry is merged
      into `node`, a channel entry is stored under `str(channel_id)` unless the
      raw id itself is a key of `channels`; an entry without `item_type`, of an
      unknown type, or a channel without `channel_id` is dropped (the KeyError is
      caught). A non-dict entry or an unhashable channel id raises TypeError. */
  function Absorb(st: ConfigState, entry: Value): Result<ConfigState>
  {
    if !entry.VDict? then Err(TypeError)
    else
      var data := entry.fields;
      match Get(data, S("item_type"))
      case None => Ok(st)
      case Some(item) =>
        var data := Remove(data, S("item_type"));
        if item == VStr("node") then Ok(st.(node := Update(st.node, data)))
        else if item == VStr("channel") then
          match Get(data, S("channel_id"))
          case None => Ok(st)
          case Some(id) =>
            var data := Remove(data, S("channel_id"));
            match AsKey(id)
            case None => Err(TypeError)
            case Some(k) =>
              if k in Keys(st.channels) then Ok(st)
              else Ok(st.(channels := Set(st.channels, S(KeyText(k)), VDict(data))))
        else Ok(st)
  }

  /** The loop over the entries, from state st. */
  function Fold(st: ConfigState, entries: seq<Value>): Result<ConfigState>
    decreases |entries|
  {
    if entries == [] then Ok(st)
    else
      match Absorb(st, entries[0])
      case Err(e) => Err(e)
      case Ok(st') => Fold(st', entries[1..])
  }

  function ConfigMessage(st: ConfigState): Value
  {
    VDict([(S("node_config"), VDict(st.node)), (S("channel_config"), VDict(st.channels))])
  }

  /** What `decode_config_entries` returns or raises. */
  function DecodeConfigEntries(entries: seq<Value>): Result<Value>
  {
    match Fold(ConfigState([], []), entries)
    case Err(e) => Err(e)
    case Ok(st) => Ok(ConfigMessage(st))
  }

  /** `decode_config_entries(entries)` */
  method DecodeConfigEntriesLoop(entries: seq<Value>) returns (r: Result<Value>)
    ensures r == DecodeConfigEntries(entries)
  {
    var node: Dict := [];
    var channels: Dict := [];
    var i := 0;
    while i < |entries|
      invariant i <= |entries|
      invariant Fold(ConfigState(node, channels), entries[i..]) == Fold(ConfigState([], []), entries)
    {
      assert entries[i..][1..] == entries[i + 1..];
      var entry := entries[i];
      if !entry.VDict? {
        return Err(TypeError);
      }
      var data := entry.fields;
      var item := Get(data, S("item_type"));
      if item.Some? {
        data := Remove(data, S("item_type"));
        if item.value == VStr("node") {
          node := Update(node, data);
        } else if item.value == VStr("channel") {
          var id := Get(data, S("channel_id"));
          if id.Some? {
            data := Remove(data, S("channel_id"));
            var k := AsKey(id.value);
            if k.None? {
              return Err(TypeError);
            }
            if k.value !in Keys(channels) {
              channels := Set(channels, S(KeyText(k.value)), VDict(data));
            }
          }
        }
      }
      i := i + 1;
    }
    assert entries[i..] == [];
    return Ok(ConfigMessage(ConfigState(node, channels)));
  }

  /** `config['channel_config'][str(chan_id)]`: Ok(None) when either key is
      missing (the KeyError the callers catch), TypeError when a level is not a
      dict. */
  function ChannelConfigOf(config: Value, id: string): Result<Option<Value>>
  {
    if !config.VDict? then Err(TypeError)
    else
      match Get(config.fields, S("channel_config"))
      case None => Ok(None)
      case Some(cc) => if cc.VDict? then Ok(Get(cc.fields, S(id))) else Err(TypeError)
  }

  // ---------------------------------------------------------------------------
  // Properties

  /** An empty dict or string packet gives the empty configuration; any other
      dict or string packet has entries that are not dicts and fails. */
  lemma NonListPackets(packet: Value, keys: KeyTable, values: ValueTables)
    requires packet.VDict? || packet.VStr?
    ensures var entries := DecodeConfigPacket(packet, keys, values).value;
      DecodeConfigEntries(entries) == if entries == [] then Ok(ConfigMessage(ConfigState([], []))) else Err(TypeError)
  {
    var items := Iterate(packet).value;
    var entries := DecodeConfigPacket(packet, keys, values).value;
    if entries != [] {
      IterateScalars(packet);
      assert items[0] in items;
      assert entries[0] == DecodeObj(items[0], keys, values) == items[0];
    }
  }

  /** The result has exactly the keys `node_config` and `channel_config`. */
  lemma ConfigMessageKeys(entries: seq<Value>)
    requires DecodeConfigEntries(entries).Ok?
    ensures var m := DecodeConfigEntries(entries).value;
      m.VDict? && DistinctKeys(m.fields) && Keys(m.fields) == {S("node_config"), S("channel_config")}
  {
    assert "node_config"[0] != "channel_config"[0];
  }

  /** A node entry is merged into the node configuration: its fields other than
      `item_type` win, every other field keeps its value. */
  lemma NodeEntryMerges(st: ConfigState, entry: Value, k: Key)
    requires entry.VDict? && DistinctKeys(entry.fields)
    requires Get(entry.fields, S("item_type")) == Some(VStr("node"))
    ensures Absorb(st, entry).Ok? && Absorb(st, entry).value.channels == st.channels
    ensures Get(Absorb(st, entry).value.node, k) ==
      if k != S("item_type") && k in Keys(entry.fields) then Get(entry.fields, k) else Get(st.node, k)
  {
    var data := Remove(entry.fields, S("item_type"));
    RemovePreservesDistinct(entry.fields, S("item_type"));
    GetUpdate(st.node, data, k);
    GetRemove(entry.fields, S("item_type"), k);
  }

  /** A channel entry whose raw id is not a key yet is stored under the id's
      string, without `item_type` and `channel_id`; no other channel changes. */
  lemma ChannelEntryStored(st: ConfigState, entry: Value, id: Key, k: Key)
    requires entry.VDict?
    requires Get(entry.fields, S("item_type")) == Some(VStr("channel"))
    requires Get(entry.fields, S("channel_id")) == Some(KeyValue(id))
    requires id !in Keys(st.channels)
    ensures Absorb(st, entry).Ok? && Absorb(st, entry).value.node == st.node
    ensures Keys(Absorb(st, entry).value.channels) == Keys(st.channels) + {S(KeyText(id))}
    ensures Get(Absorb(st, entry).value.channels, k) ==
      if k == S(KeyText(id)) then Some(VDict(Remove(Remove(entry.fields, S("item_type")), S("channel_id"))))
      else Get(st.channels, k)
  {
    var data := Remove(entry.fields, S("item_type"));
    GetRemove(entry.fields, S("item_type"), S("channel_id"));
    assert "channel_id"[0] != "item_type"[0];
    GetSet(st.channels, S(KeyText(id)), VDict(Remove(data, S("channel_id"))), k);
  }

  /** Entries without `item_type`, of an unknown type, and channel entries
      without `channel_id` change nothing. */
  lemma MalformedEntriesDropped(st: ConfigState, entry: Value)
    requires entry.VDict?
    requires var item := Get(entry.fields, S("item_type"));
      || item.None?
      || (item.Some? && item.value != VStr("node") && item.value != VStr("channel"))
      || (item == Some(VStr("channel")) && Get(entry.fields, S("channel_id")).None?)
    ensures Absorb(st, entry) == Ok(st)
  {
    GetRemove(entry.fields, S("item_type"), S("channel_id"));
    assert "channel_id"[0] != "item_type"[0];
  }

  /** The duplicate guard compares the raw id with the stored string keys: a
      string id is stored once, the first entry winning, but a repeated integer
      id never matches and the later entry overwrites the earlier one. */
  lemma DuplicateGuard(st: ConfigState, e1: Value, e2: Value, id: Key)
    requires e1.VDict? && e2.VDict?
    requires Get(e1.fields, S("item_type")) == Some(VStr("channel")) && Get(e1.fields, S("channel_id")) == Some(KeyValue(id))
    requires Get(e2.fields, S("item_type")) == Some(VStr("channel")) && Get(e2.fields, S("channel_id")) == Some(KeyValue(id))
    requires id !in Keys(st.channels)
    ensures Fold(st, [e1, e2]).Ok?
    ensures var stored := Get(Fold(st, [e1, e2]).value.channels, S(KeyText(id)));
      && (id.KStr? ==> stored == Some(VDict(Remove(Remove(e1.fields, S("item_type")), S("channel_id")))))
      && (id.KInt? ==> stored == Some(VDict(Remove(Remove(e2.fields, S("item_type")), S("channel_id")))))
  {
    ChannelEntryStored(st, e1, id, S(KeyText(id)));
    var st1 := Absorb(st, e1).value;
    assert [e1, e2][1..] == [e2];
    assert [e2][1..] == [];
    assert Fold(st, [e1, e2]) == Fold(st1, [e2]);
    if id.KInt? {
      ChannelEntryStored(st1, e2, id, S(KeyText(id)));
      assert Fold(st1, [e2]) == Fold(Absorb(st1, e2).value, []);
    } else if id.KStr? {
      GetRemove(e2.fields, S("item_type"), S("channel_id"));
      assert "channel_id"[0] != "item_type"[0];
      assert S(KeyText(id)) == id && AsKey(KeyValue(id)) == Some(id);
      assert Absorb(st1, e2) == Ok(st1);
      assert Fold(st1, [e2]) == Fold(st1, []);
    }
  }

  /** Only strings are stored as channel keys. */
  lemma {:induction false} ChannelKeysAreStrings(st: ConfigState, entries: seq<Value>)
    requires forall k :: k in Keys(st.channels) ==> k.KStr?
    requires Fold(st, entries).Ok?
    ensures forall k :: k in Keys(Fold(st, entries).value.channels) ==> k.KStr?
    decreases |entries|
  {
    if entries != [] {
      ChannelKeysAreStrings(Absorb(st, entries[0]).value, entries[1..]);
    }
  }
}
