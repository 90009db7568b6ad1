/** The records the converters send: data records `{"channel_id": c, "value":
    v}` and the descriptors of the configuration message, which name the node and
    describe each channel. */
module Records {
  import opened Values
  import opened Bits
  import opened Layout
  import opened Catalog
  import opened Codec

  /** The channel id a record or descriptor carries. */
  function ChannelId(v: Value): Option<Value>
  {
    if v.VDict? then Get(v.fields, S("channel_id")) else None
  }

  function FieldChannels(fs: seq<Field>): (r: seq<int>)
    ensures |r| == |fs| && forall i :: 0 <= i < |fs| ==> r[i] == fs[i].channel
  {
    seq(|fs|, i requires 0 <= i < |fs| => fs[i].channel)
  }

  lemma FieldChannelsAppend(a: seq<Field>, b: seq<Field>)
    ensures FieldChannels(a + b) == FieldChannels(a) + FieldChannels(b)
  {
  }

  /** Each value carries the channel id at the same index of chans. */
  ghost predicate SameChannels(vs: seq<Value>, chans: seq<int>)
  {
    |vs| == |chans| && forall i :: 0 <= i < |vs| ==> ChannelId(vs[i]) == Some(VInt(chans[i]))
  }

  lemma SameChannelsAppend(vs: seq<Value>, cs: seq<int>, vs': seq<Value>, cs': seq<int>)
    requires SameChannels(vs, cs) && SameChannels(vs', cs')
    ensures SameChannels(vs + vs', cs + cs')
  {
    forall i | 0 <= i < |vs + vs'| ensures ChannelId((vs + vs')[i]) == Some(VInt((cs + cs')[i])) {
      if i >= |vs| {
        assert (vs + vs')[i] == vs'[i - |vs|] && (cs + cs')[i] == cs'[i - |vs|];
      }
    }
  }

  lemma ReadFieldChannel(payload: seq<byte>, pos: nat, f: Field)
    requires pos + Width(f.kind) <= 8 * |payload|
    ensures ChannelId(ReadField(payload, pos, f)) == Some(VInt(f.channel))
  {
  }

  /** The records read for a run of fields carry the fields' channel ids. */
  lemma {:induction false} ReadChannels(payload: seq<byte>, start: nat, fs: seq<Field>)
    requires start + TotalWidth(fs) <= 8 * |payload|
    ensures SameChannels(ReadFields(payload, start, fs).value, FieldChannels(fs))
    decreases |fs|
  {
    if fs != [] {
      var init := fs[..|fs| - 1];
      var last := fs[|fs| - 1];
      ReadFieldsInitLast(payload, start, fs);
      var di := ReadFields(payload, start, init).value;
      var x := ReadField(payload, start + TotalWidth(init), last);
      assert ReadFields(payload, start, fs).value == di + [x];
      ReadChannels(payload, start, init);
      ReadFieldChannel(payload, start + TotalWidth(init), last);
      assert SameChannels([x], [last.channel]);
      assert FieldChannels(fs) == FieldChannels(init) + [last.channel] by {
        assert fs == init + [last];
        FieldChannelsAppend(init, [last]);
      }
      SameChannelsAppend(di, FieldChannels(init), [x], [last.channel]);
    }
  }

  /** What a channel descriptor says. Its keys appear in this order, each
      optional one only when given: `item_type`, `channel_id`, `quantity`,
      `unit`, `measured`, `measured:size`, `divider`, `offset`. */
  datatype Channel = Channel(
    id: int, quantity: Option<string>, unit: Option<string>, measured: Option<string>,
    size: Option<Value>, divider: Option<int>, offset: Option<int>)

  /** `d[key] = v` when v is given. */
  function Put(d: Dict, key: string, v: Option<Value>): Dict
  {
    if v.Some? then Set(d, S(key), v.value) else d
  }

  function OStr(s: Option<string>): Option<Value> { if s.Some? then Some(VStr(s.value)) else None }
  function OInt(n: Option<int>): Option<Value> { if n.Some? then Some(VInt(n.value)) else None }

  /** The dict literal of a channel descriptor, built key by key. */
  function DescriptorDict(ch: Channel): Dict
  {
    var d := Set(Set([], S("item_type"), VStr("channel")), S("channel_id"), VInt(ch.id));
    var d := Put(Put(Put(d, "quantity", OStr(ch.quantity)), "unit", OStr(ch.unit)), "measured", OStr(ch.measured));
    Put(Put(Put(d, "measured:size", ch.size), "divider", OInt(ch.divider)), "offset", OInt(ch.offset))
  }

  lemma PutOther(d: Dict, key: string, v: Option<Value>, k: Key)
    requires k != S(key)
    ensures Get(Put(d, key, v), k) == Get(d, k)
  {
    if v.Some? {
      GetSet(d, S(key), v.value, k);
    }
  }

  /** The channel descriptor `{"item_type": "channel", "channel_id": id, ...}`. */
  function Describe(ch: Channel): (r: Value)
    ensures ChannelId(r) == Some(VInt(ch.id))
  {
    DescribedChannel(ch);
    VDict(DescriptorDict(ch))
  }

  lemma DescribedChannel(ch: Channel)
    ensures Get(DescriptorDict(ch), S("channel_id")) == Some(VInt(ch.id))
  {
    var k := S("channel_id");
    var d0 := Set([], S("item_type"), VStr("channel"));
    var d := Set(d0, k, VInt(ch.id));
    GetSet(d0, k, VInt(ch.id), k);
    var d1 := Put(d, "quantity", OStr(ch.quantity));
    var d2 := Put(d1, "unit", OStr(ch.unit));
    var d3 := Put(d2, "measured", OStr(ch.measured));
    var d4 := Put(d3, "measured:size", ch.size);
    var d5 := Put(d4, "divider", OInt(ch.divider));
    assert "channel_id"[0] != "quantity"[0] && "channel_id"[0] != "unit"[0] && "channel_id"[0] != "measured"[0];
    assert "channel_id"[0] != "divider"[0] && "channel_id"[0] != "offset"[0];
    PutOther(d, "quantity", OStr(ch.quantity), k);
    PutOther(d1, "unit", OStr(ch.unit), k);
    PutOther(d2, "measured", OStr(ch.measured), k);
    PutOther(d3, "measured:size", ch.size, k);
    PutOther(d4, "divider", OInt(ch.divider), k);
    PutOther(d5, "offset", OInt(ch.offset), k);
  }

  function Ids(chs: seq<Channel>): (r: seq<int>)
    ensures |r| == |chs| && forall i :: 0 <= i < |chs| ==> r[i] == chs[i].id
  {
    seq(|chs|, i requires 0 <= i < |chs| => chs[i].id)
  }

  lemma IdsAppend(a: seq<Channel>, b: seq<Channel>)
    ensures Ids(a + b) == Ids(a) + Ids(b)
  {
  }

  function DescribeAll(chs: seq<Channel>): (r: seq<Value>)
    ensures |r| == |chs| && forall i :: 0 <= i < |chs| ==> r[i] == Describe(chs[i])
  {
    seq(|chs|, i requires 0 <= i < |chs| => Describe(chs[i]))
  }

  /** The node descriptor, with the firmware version when the packet has one. */
  function NodeDescriptor(firmware: Option<nat>): (r: Value)
    ensures ChannelId(r) == None
  {
    var d := [(S("item_type"), VStr("node"))]
      + (if firmware.Some? then [(S("firmware_version"), VInt(firmware.value))] else []);
    assert "item_type"[0] != "channel_id"[0] && "firmware_version"[0] != "channel_id"[0];
    assert Get(d[1..], S("channel_id")) == None by {
      if firmware.Some? {
        assert Get(d[1..][1..], S("channel_id")) == None;
      }
    }
    VDict(d)
  }

  /** The configuration list of a packet: the node descriptor, then one
      descriptor per channel. */
  function ConfigList(firmware: Option<nat>, chs: seq<Channel>): seq<Value>
  {
    [NodeDescriptor(firmware)] + DescribeAll(chs)
  }

  /** The node descriptor has no channel id; the i-th channel descriptor has
      the i-th channel's. */
  lemma ConfigListChannels(firmware: Option<nat>, chs: seq<Channel>)
    ensures |ConfigList(firmware, chs)| == |chs| + 1
    ensures ChannelId(ConfigList(firmware, chs)[0]) == None
    ensures SameChannels(ConfigList(firmware, chs)[1..], Ids(chs))
  {
    assert ConfigList(firmware, chs)[1..] == DescribeAll(chs);
  }

  /** A record the catalog `values` compacts and expands back to itself: its
      keys are distinct strings and no integer sits under a key that has a value
      table. */
  ghost predicate Restorable(v: Value, values: ValueTables)
  {
    && v.VDict? && DistinctKeys(v.fields)
    && forall i :: 0 <= i < |v.fields| ==> Compactable(v.fields[i], values)
  }

  /** Both converters ship value tables for the same four keys. */
  const ConverterTableKeys: set<string> := {"quantity", "unit", "sensor", "item_type"}

  lemma ConverterTableNames()
    ensures RedisConverterValues.Keys == ConverterTableKeys
    ensures KafkaConverterValues.Keys == ConverterTableKeys
  {
  }

  /** Every entry of `d[k] = v` is (k, v) or an entry of d. */
  lemma {:induction false} SetEntries(d: Dict, k: Key, v: Value)
    ensures forall e :: e in Set(d, k, v) ==> e == (k, v) || e in d
    decreases |d|
  {
    if d != [] && d[0].0 != k {
      SetEntries(d[1..], k, v);
      assert forall e :: e in d[1..] ==> e in d;
    }
  }

  /** Assigning a field the catalog cannot mistake keeps a dict restorable. */
  lemma PutRestorable(d: Dict, key: string, v: Option<Value>, values: ValueTables)
    requires DistinctKeys(d) && forall e :: e in d ==> Compactable(e, values)
    requires v.Some? && v.value.VInt? ==> key !in values
    ensures DistinctKeys(Put(d, key, v)) && forall e :: e in Put(d, key, v) ==> Compactable(e, values)
  {
    if v.Some? {
      SetPreservesDistinct(d, S(key), v.value);
      SetEntries(d, S(key), v.value);
    }
  }

  /** The names under which descriptors carry integers have no value table. */
  lemma PlainNames(values: ValueTables)
    requires values.Keys == ConverterTableKeys
    ensures "channel_id" !in values && "divider" !in values && "offset" !in values && "measured:size" !in values
  {
    assert "channel_id"[0] !in "quis" && "divider"[0] !in "quis" && "offset"[0] !in "quis";
    assert |"measured:size"| !in {|"quantity"|, |"unit"|, |"sensor"|, |"item_type"|};
  }

  /** A channel descriptor survives a catalog with the converters' value
      tables (ConverterTableNames): the integers it carries sit under `channel_id`, `measured:size`, `divider` and
      `offset`, none of which has a value table. */
  lemma DescribeRestorable(ch: Channel, values: ValueTables)
    requires values.Keys == ConverterTableKeys
    ensures Restorable(Describe(ch), values)
  {
    PlainNames(values);
    var d0 := Set([], S("item_type"), VStr("channel"));
    PutRestorable([], "item_type", Some(VStr("channel")), values);
    var d := Set(d0, S("channel_id"), VInt(ch.id));
    PutRestorable(d0, "channel_id", Some(VInt(ch.id)), values);
    var d1 := Put(d, "quantity", OStr(ch.quantity));
    PutRestorable(d, "quantity", OStr(ch.quantity), values);
    var d2 := Put(d1, "unit", OStr(ch.unit));
    PutRestorable(d1, "unit", OStr(ch.unit), values);
    var d3 := Put(d2, "measured", OStr(ch.measured));
    PutRestorable(d2, "measured", OStr(ch.measured), values);
    var d4 := Put(d3, "measured:size", ch.size);
    PutRestorable(d3, "measured:size", ch.size, values);
    var d5 := Put(d4, "divider", OInt(ch.divider));
    PutRestorable(d4, "divider", OInt(ch.divider), values);
    PutRestorable(d5, "offset", OInt(ch.offset), values);
    var r := DescriptorDict(ch);
    forall i | 0 <= i < |r| ensures Compactable(r[i], values) {
      assert r[i] in r;
    }
  }

  lemma NodeRestorable(firmware: Option<nat>, values: ValueTables)
    requires values.Keys == ConverterTableKeys
    ensures Restorable(NodeDescriptor(firmware), values)
  {
    var d := NodeDescriptor(firmware).fields;
    assert "item_type" != "firmware_version";
    assert "firmware_version"[0] !in "quis";
  }

  /** Every descriptor of a configuration list survives a catalog with the
      converters' value tables. */
  lemma ConfigListRestorable(firmware: Option<nat>, chs: seq<Channel>, values: ValueTables)
    requires values.Keys == ConverterTableKeys
    ensures forall i :: 0 <= i < |ConfigList(firmware, chs)| ==> Restorable(ConfigList(firmware, chs)[i], values)
  {
    var cl := ConfigList(firmware, chs);
    NodeRestorable(firmware, values);
    forall i | 0 <= i < |cl| ensures Restorable(cl[i], values) {
      if i > 0 {
        assert cl[i] == Describe(chs[i - 1]);
        DescribeRestorable(chs[i - 1], values);
      }
    }
  }
}
