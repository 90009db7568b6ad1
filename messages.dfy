/** The uplink message as the converters receive it from The Things Network and
    hand it on, and the identifiers the decoders derive from it. */
module Messages {
  import opened Values

  /** Port of the configuration messages the converters produce. */
  const CONFIG_PORT := 1
  /** Port of the data messages the converters produce. */
  const DATA_PORT := 2

  /** The fields of an uplink message the core reads: `app_id`, `dev_id`,
      `port`, `counter` and `metadata.time`. */
  datatype Uplink = Uplink(appId: string, devId: string, port: int, counter: int, time: string)

  /** An outgoing message: the uplink fields, and the payload that becomes
      `payload_raw` (base64 of its CBOR encoding). */
  datatype Envelope = Envelope(msg: Uplink, payload: seq<Value>)

  /** `produce_message(msg_obj, payload, port)`: the uplink object gets the new
      port and payload IN PLACE, so the next message produced from it starts from
      the rewritten object. */
  function ProduceMessage(msg: Uplink, payload: seq<Value>, port: int): (r: Envelope)
  {
    Envelope(msg.(port := port), payload)
  }

  /** Producing from an object rewritten by an earlier produce gives the same
      message as producing from the original: nothing of the first message leaks
      into the second, and the uplink's identity is kept. */
  lemma ProduceOverwrites(msg: Uplink, a: seq<Value>, b: seq<Value>, p: int, q: int)
    ensures ProduceMessage(ProduceMessage(msg, a, p).msg, b, q) == ProduceMessage(msg, b, q)
    ensures ProduceMessage(msg, b, q).msg.port == q
    ensures ProduceMessage(msg, b, q).msg.(port := msg.port) == msg
  {
  }

  /** `make_ttn_node_id` */
  function MakeTtnNodeId(msg: Uplink): string
  {
    "ttn/" + msg.appId + "/" + msg.devId
  }

  /** `make_msg_id` */
  function MakeMsgId(nodeId: string, msg: Uplink): string
  {
    nodeId + "/" + msg.time
  }

  /** `make_meas_id` */
  function MakeMeasId(msgId: string, chanId: Key): string
  {
    msgId + "/" + KeyText(chanId)
  }

  /** Index of the first '/' in s, or |s| when there is none. */
  function SlashIndex(s: string): (r: nat)
    ensures r <= |s|
  {
    if s == [] || s[0] == '/' then 0 else 1 + SlashIndex(s[1..])
  }

  lemma {:induction false} SlashIndexJoin(a: string, b: string)
    requires '/' !in a
    ensures SlashIndex(a + "/" + b) == |a|
    decreases |a|
  {
    if a != [] {
      assert (a + "/" + b)[1..] == a[1..] + "/" + b;
      SlashIndexJoin(a[1..], b);
    }
  }

  lemma FirstSlash(a: string, b: string, a': string, b': string)
    requires '/' !in a && '/' !in a'
    requires a + "/" + b == a' + "/" + b'
    ensures a == a' && b == b'
  {
    var s := a + "/" + b;
    SlashIndexJoin(a, b);
    SlashIndexJoin(a', b');
    assert |a| == |a'|;
    assert a == s[..|a|] == a';
    assert b == s[|a| + 1..] == b';
  }

  /** Two uplinks get the same node id only when they come from the same device
      of the same application, provided application ids contain no '/'
      (The Things Network's ids are lower-case letters, digits, '-' and '_'). */
  lemma NodeIdInjective(m: Uplink, m': Uplink)
    requires '/' !in m.appId && '/' !in m'.appId
    requires MakeTtnNodeId(m) == MakeTtnNodeId(m')
    ensures m.appId == m'.appId && m.devId == m'.devId
  {
    var n, n' := MakeTtnNodeId(m), MakeTtnNodeId(m');
    assert n[4..] == m.appId + "/" + m.devId;
    assert n'[4..] == m'.appId + "/" + m'.devId;
    FirstSlash(m.appId, m.devId, m'.appId, m'.devId);
  }

  /** Measurements of one message under distinct channel names get distinct ids. */
  lemma MeasIdInjective(msgId: string, a: string, b: string)
    requires MakeMeasId(msgId, KStr(a)) == MakeMeasId(msgId, KStr(b))
    ensures a == b
  {
    var p := msgId + "/";
    assert MakeMeasId(msgId, KStr(a)) == p + a && MakeMeasId(msgId, KStr(b)) == p + b;
    assert (p + a)[|p|..] == a && (p + b)[|p|..] == b;
  }
}
