/** The sensor payload layouts both converters decode: which optional values a
    packet carries, and reading a run of fixed-width fields from the bit stream
    into data records `{"channel_id": c, "value": v}`. */
module Layout {
  import opened Values
  import opened Bits

  type PosNat = n: nat | n >= 1 witness 1

  /** How a field is read: `uint:w`, `int:w`, or two `int:w` in a list. */
  datatype Kind = Unsigned(width: nat) | Signed(swidth: PosNat) | SignedPair(pwidth: PosNat)

  datatype Field = Field(channel: int, kind: Kind)

  function Width(k: Kind): nat
  {
    match k
    case Unsigned(w) => w
    case Signed(w) => w
    case SignedPair(w) => 2 * w
  }

  /** Bits taken by a run of fields. */
  function TotalWidth(fs: seq<Field>): nat
  {
    if fs == [] then 0 else TotalWidth(fs[..|fs| - 1]) + Width(fs[|fs| - 1].kind)
  }

  /** The data record of one reading. */
  function Reading(channel: int, value: Value): Value
  {
    VDict([(S("channel_id"), VInt(channel)), (S("value"), value)])
  }

  /** The value a field of this kind holds at bit position pos. */
  function FieldValue(bytes: seq<byte>, pos: nat, k: Kind): Value
    requires pos + Width(k) <= 8 * |bytes|
  {
    match k
    case Unsigned(w) => VInt(UintAt(bytes, pos, w))
    case Signed(w) => VInt(IntAt(bytes, pos, w))
    case SignedPair(w) => VList([VInt(IntAt(bytes, pos, w)), VInt(IntAt(bytes, pos + w, w))])
  }

  function ReadField(bytes: seq<byte>, pos: nat, f: Field): Value
    requires pos + Width(f.kind) <= 8 * |bytes|
  {
    Reading(f.channel, FieldValue(bytes, pos, f.kind))
  }

  /** The records of fs read one after the other from bit position pos; None
      (ReadError) when the payload ends before the last field does. */
  function ReadFields(bytes: seq<byte>, pos: nat, fs: seq<Field>): (r: Option<seq<Value>>)
    requires pos <= 8 * |bytes|
    ensures r.Some? <==> pos + TotalWidth(fs) <= 8 * |bytes|
    ensures r.Some? ==> |r.value| == |fs|
  {
    if fs == [] then Some([])
    else
      var init := fs[..|fs| - 1];
      var last := fs[|fs| - 1];
      if pos + TotalWidth(init) + Width(last.kind) > 8 * |bytes| then None
      else
        var r := ReadFields(bytes, pos, init);
        Some(r.value + [ReadField(bytes, pos + TotalWidth(init), last)])
  }

  /** Reading one more field extends the records by that field's record. */
  lemma ReadFieldsSnoc(bytes: seq<byte>, pos: nat, fs: seq<Field>, f: Field)
    requires pos + TotalWidth(fs) + Width(f.kind) <= 8 * |bytes|
    ensures TotalWidth(fs + [f]) == TotalWidth(fs) + Width(f.kind)
    ensures ReadFields(bytes, pos, fs + [f])
         == Some(ReadFields(bytes, pos, fs).value + [ReadField(bytes, pos + TotalWidth(fs), f)])
  {
    var g := fs + [f];
    assert g != [];
    assert g[..|g| - 1] == fs;
    assert g[|g| - 1] == f;
    assert TotalWidth(g) == TotalWidth(fs) + Width(f.kind);
  }

  /** Widths add up over concatenation. */
  lemma {:induction false} TotalWidthAppend(a: seq<Field>, b: seq<Field>)
    ensures TotalWidth(a + b) == TotalWidth(a) + TotalWidth(b)
    decreases |b|
  {
    if b != [] {
      var b' := b[..|b| - 1];
      var ab := a + b;
      assert ab[..|ab| - 1] == a + b';
      assert ab[|ab| - 1] == b[|b| - 1];
      assert TotalWidth(ab) == TotalWidth(a + b') + Width(b[|b| - 1].kind);
      assert TotalWidth(b) == TotalWidth(b') + Width(b[|b| - 1].kind);
      TotalWidthAppend(a, b');
    } else {
      assert a + b == a;
    }
  }

  lemma ReadFieldsInitLast(bytes: seq<byte>, pos: nat, fs: seq<Field>)
    requires pos + TotalWidth(fs) <= 8 * |bytes| && |fs| > 0
    ensures pos + TotalWidth(fs[..|fs| - 1]) + Width(fs[|fs| - 1].kind) <= 8 * |bytes|
    ensures ReadFields(bytes, pos, fs).value
         == ReadFields(bytes, pos, fs[..|fs| - 1]).value + [ReadField(bytes, pos + TotalWidth(fs[..|fs| - 1]), fs[|fs| - 1])]
  {
    assert TotalWidth(fs) == TotalWidth(fs[..|fs| - 1]) + Width(fs[|fs| - 1].kind);
  }

  /** Which optional values a packet carries. */
  datatype Presence = Presence(firmware: bool, supply: bool, lux: bool, pm: bool, battery: bool, extra: bool)

  /** A decoded packet: its port and optional values, the firmware version, and
      the data records. */
  datatype Packet = Packet(port: int, presence: Presence, firmware: Option<nat>, data: seq<Value>)

  /** Bits a packet with these values takes: the firmware version (8), the
      position (2 x 24), temperature and humidity (12 each), supply (8), lux
      (16), two particulate-matter readings (16 each) and battery (8). */
  function PayloadBits(p: Presence): nat
  {
    (if p.firmware then 8 else 0) + 72 + (if p.supply then 8 else 0) + (if p.lux then 16 else 0)
    + (if p.pm then 32 else 0) + (if p.battery then 8 else 0)
  }

  /** The fixed layouts of ports 10 (legacy, no firmware version), 11 (firmware
      and supply) and 12 (firmware, supply and lux), each an optional one-byte
      battery reading and, on 11 and 12, an optional four-byte particulate
      matter reading; the payload length tells which. None for any other port or
      length. */
  function FixedPresence(port: int, length: int): (r: Option<Presence>)
    ensures r.Some? ==> PayloadBits(r.value) == 8 * length && !r.value.extra
    ensures r.Some? ==> (r.value.firmware <==> port != 10) && (r.value.lux <==> port == 12)
    ensures r.Some? ==> port in {10, 11, 12} && (port != 10 ==> r.value.supply)
  {
    if port == 10 then
      if length == 9 then Some(Presence(false, false, false, false, false, false))
      else if length == 10 then Some(Presence(false, true, false, false, false, false))
      else if length == 11 then Some(Presence(false, true, false, false, true, false))
      else None
    else if port == 11 then
      if length == 11 then Some(Presence(true, true, false, false, false, false))
      else if length == 12 then Some(Presence(true, true, false, false, true, false))
      else if length == 15 then Some(Presence(true, true, false, true, false, false))
      else if length == 16 then Some(Presence(true, true, false, true, true, false))
      else None
    else if port == 12 then
      if length == 13 then Some(Presence(true, true, true, false, false, false))
      else if length == 14 then Some(Presence(true, true, true, false, true, false))
      else if length == 17 then Some(Presence(true, true, true, true, false, false))
      else if length == 18 then Some(Presence(true, true, true, true, true, false))
      else None
    else None
  }

  /** On a fixed port the length alone decides the layout: two accepted lengths
      never share one, and every packet whose layout has the port's mandatory
      values and no extra is accepted at exactly its own length. */
  lemma FixedPresenceExact(port: int, p: Presence)
    requires port in {10, 11, 12} && !p.extra
    requires (p.firmware <==> port != 10) && (p.lux <==> port == 12) && (port != 10 ==> p.supply)
    requires port == 10 ==> !p.pm && (p.battery ==> p.supply)
    ensures PayloadBits(p) % 8 == 0
    ensures FixedPresence(port, PayloadBits(p) / 8) == Some(p)
  {
  }

  /** One field read from the stream, or None (ReadError) when the payload ends
      inside it. */
  method ReadNext(stream: BitStream, start: nat, data: seq<Value>, ghost fields: seq<Field>, f: Field)
    returns (r: Option<seq<Value>>)
    requires stream.Valid() && stream.pos == start + TotalWidth(fields)
    requires ReadFields(stream.bytes, start, fields) == Some(data)
    modifies stream
    ensures stream.Valid()
    ensures r.None? ==> start + TotalWidth(fields) + Width(f.kind) > stream.Len()
    ensures r.Some? ==>
      && r == ReadFields(stream.bytes, start, fields + [f])
      && TotalWidth(fields + [f]) == TotalWidth(fields) + Width(f.kind)
      && stream.pos == start + TotalWidth(fields + [f])
  {
    var pos := stream.pos;
    if pos + Width(f.kind) > stream.Len() {
      return None;
    }
    ReadFieldsSnoc(stream.bytes, start, fields, f);
    var value := ReadValue(stream, f.kind);
    return Some(data + [Reading(f.channel, value)]);
  }

  /** The tokens of one field: `uint:w`, `int:w`, or two `int:w`. */
  method ReadValue(stream: BitStream, k: Kind) returns (value: Value)
    requires stream.Valid() && stream.pos + Width(k) <= stream.Len()
    modifies stream
    ensures stream.Valid() && stream.pos == old(stream.pos) + Width(k)
    ensures value == FieldValue(stream.bytes, old(stream.pos), k)
  {
    match k {
      case Unsigned(w) =>
        var u := stream.ReadUint(w);
        value := VInt(u.value);
      case Signed(w) =>
        var i := stream.ReadInt(w);
        value := VInt(i.value);
      case SignedPair(w) =>
        var a := stream.ReadInt(w);
        var b := stream.ReadInt(w);
        value := VList([VInt(a.value), VInt(b.value)]);
    }
  }

  lemma WidthOfTwo(a: Field, b: Field)
    ensures TotalWidth([a, b]) == Width(a.kind) + Width(b.kind)
  {
    assert [a, b][..1] == [a] && [a, b][1] == b;
    WidthOfOne(a);
  }

  lemma WidthOfOne(a: Field)
    ensures TotalWidth([a]) == Width(a.kind)
  {
    assert [a][..0] == [];
  }

  /** A field that does not fit makes every longer run fail. */
  lemma RunOverrun(bytes: seq<byte>, start: nat, done: seq<Field>, f: Field, rest: seq<Field>)
    requires start <= 8 * |bytes|
    requires start + TotalWidth(done) + Width(f.kind) > 8 * |bytes|
    ensures ReadFields(bytes, start, done + [f] + rest) == None
  {
    WidthOfOne(f);
    TotalWidthAppend(done, [f]);
    TotalWidthAppend(done + [f], rest);
  }

  /** Once a run does not fit, no longer run does. */
  lemma PrefixOverrun(bytes: seq<byte>, start: nat, a: seq<Field>, b: seq<Field>)
    requires start <= 8 * |bytes|
    requires ReadFields(bytes, start, a) == None
    ensures ReadFields(bytes, start, a + b) == None
  {
    TotalWidthAppend(a, b);
  }

  /** A run of fields read one after the other, None (ReadError) at the first
      that does not fit. */
  method ReadRun(stream: BitStream, start: nat, data: seq<Value>, ghost fields: seq<Field>, run: seq<Field>)
    returns (r: Option<seq<Value>>)
    requires stream.Valid() && stream.pos == start + TotalWidth(fields)
    requires ReadFields(stream.bytes, start, fields) == Some(data)
    modifies stream
    ensures stream.Valid()
    ensures r == ReadFields(stream.bytes, start, fields + run)
    ensures r.Some? ==> stream.pos == start + TotalWidth(fields + run)
    decreases |run|
  {
    if run == [] {
      assert fields + run == fields;
      return Some(data);
    }
    var next := ReadNext(stream, start, data, fields, run[0]);
    if next.None? {
      assert fields + run == fields + [run[0]] + run[1..];
      RunOverrun(stream.bytes, start, fields, run[0], run[1..]);
      return None;
    }
    assert fields + run == fields + [run[0]] + run[1..];
    r := ReadRun(stream, start, next.value, fields + [run[0]], run[1..]);
  }
}
