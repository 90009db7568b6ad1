/** The configuration compactor (`encode_cbor_obj`, used by both converters) and
    its inverse (`decode_cbor_obj`, used by both decoders). Each rewrites a record
    field by field through the catalog and assigns the result into a fresh dict;
    anything the catalog does not know passes through unchanged. */
module Codec {
  import opened Values
  import opened Catalog

  type Entry = (Key, Value)

  /** The fields of a record rewritten one by one and assigned, in order, into
      `out`: the loop `for key, value in obj.items(): ...; out[key] = value`. */
  function Rewrite(out: Dict, rest: Dict, f: Entry -> Entry): (r: Dict)
    ensures |r| <= |out| + |rest|
    decreases |rest|
  {
    if rest == [] then out
    else
      var e := f(rest[0]);
      Rewrite(Set(out, e.0, e.1), rest[1..], f)
  }

  /** The result is a well-formed dict whatever the rewrite does to the keys. */
  lemma {:induction false} RewritePreservesDistinct(out: Dict, rest: Dict, f: Entry -> Entry)
    requires DistinctKeys(out)
    ensures DistinctKeys(Rewrite(out, rest, f))
    decreases |rest|
  {
    if rest != [] {
      var e := f(rest[0]);
      SetPreservesDistinct(out, e.0, e.1);
      RewritePreservesDistinct(Set(out, e.0, e.1), rest[1..], f);
    }
  }

  /** Compaction of one field: a string value becomes its code when the ORIGINAL
      key has a value table that lists it; a string key becomes its code when the
      key table lists it. */
  function EncodeField(e: Entry, keys: KeyCodes, values: ValueCodes): Entry
  {
    var value :=
      if e.1.VStr? && e.0.KStr? && e.0.s in values && e.1.s in values[e.0.s]
      then VInt(values[e.0.s][e.1.s]) else e.1;
    var key := if e.0.KStr? && e.0.s in keys then KInt(keys[e.0.s]) else e.0;
    (key, value)
  }

  function EncodeEntry(keys: KeyCodes, values: ValueCodes): Entry -> Entry
  {
    (e: Entry) => EncodeField(e, keys, values)
  }

  /** Expansion of one field: an integer key becomes its name when the key table
      lists it; an integer value becomes its name when the CONVERTED key has a
      value table that lists it. */
  function DecodeField(e: Entry, keys: KeyTable, values: ValueTables): Entry
  {
    var key := if e.0.KInt? && e.0.i in keys then KStr(keys[e.0.i]) else e.0;
    var value :=
      if e.1.VInt? && key.KStr? && key.s in values && e.1.i in values[key.s]
      then VStr(values[key.s][e.1.i]) else e.1;
    (key, value)
  }

  function DecodeEntry(keys: KeyTable, values: ValueTables): Entry -> Entry
  {
    (e: Entry) => DecodeField(e, keys, values)
  }

  /** `encode_cbor_obj(obj, keys, values)` */
  function EncodeObj(obj: Value, keys: KeyCodes, values: ValueCodes): (r: Value)
  {
    if obj.VDict? then VDict(Rewrite([], obj.fields, EncodeEntry(keys, values))) else obj
  }

  /** `decode_cbor_obj(obj, keys, values)` */
  function DecodeObj(obj: Value, keys: KeyTable, values: ValueTables): (r: Value)
  {
    if obj.VDict? then VDict(Rewrite([], obj.fields, DecodeEntry(keys, values))) else obj
  }

  method EncodeCborObj(obj: Value, keys: KeyCodes, values: ValueCodes) returns (r: Value)
    ensures r == EncodeObj(obj, keys, values)
  {
    if !obj.VDict? {
      return obj;
    }
    var out: Dict := [];
    var i := 0;
    while i < |obj.fields|
      invariant i <= |obj.fields|
      invariant Rewrite(out, obj.fields[i..], EncodeEntry(keys, values))
             == Rewrite([], obj.fields, EncodeEntry(keys, values))
    {
      var (key, value) := obj.fields[i];
      if value.VStr? {
        if key.KStr? && key.s in values && value.s in values[key.s] {
          value := VInt(values[key.s][value.s]);
        }
      }
      if key.KStr? && key.s in keys {
        key := KInt(keys[key.s]);
      }
      assert (key, value) == EncodeField(obj.fields[i], keys, values);
      assert obj.fields[i..][1..] == obj.fields[i + 1..];
      out := Set(out, key, value);
      i := i + 1;
    }
    return VDict(out);
  }

  method DecodeCborObj(obj: Value, keys: KeyTable, values: ValueTables) returns (r: Value)
    ensures r == DecodeObj(obj, keys, values)
  {
    if !obj.VDict? {
      return obj;
    }
    var out: Dict := [];
    var i := 0;
    while i < |obj.fields|
      invariant i <= |obj.fields|
      invariant Rewrite(out, obj.fields[i..], DecodeEntry(keys, values))
             == Rewrite([], obj.fields, DecodeEntry(keys, values))
    {
      var (key, value) := obj.fields[i];
      if key.KInt? && key.i in keys {
        key := KStr(keys[key.i]);
      }
      if value.VInt? {
        if key.KStr? && key.s in values && value.i in values[key.s] {
          value := VStr(values[key.s][value.i]);
        }
      }
      assert (key, value) == DecodeField(obj.fields[i], keys, values);
      assert obj.fields[i..][1..] == obj.fields[i + 1..];
      out := Set(out, key, value);
      i := i + 1;
    }
    return VDict(out);
  }

  // ---------------------------------------------------------------------------
  // Properties

  function MapEntries(d: Dict, f: Entry -> Entry): (r: Dict)
    ensures |r| == |d| && forall i :: 0 <= i < |d| ==> r[i] == f(d[i])
  {
    seq(|d|, i requires 0 <= i < |d| => f(d[i]))
  }

  /** No two fields are rewritten to the same key. */
  ghost predicate KeysStayDistinct(d: Dict, f: Entry -> Entry)
  {
    forall i, j :: 0 <= i < j < |d| ==> f(d[i]).0 != f(d[j]).0
  }

  /** When the rewritten keys do not collide with each other or with `out`, the
      loop only appends: the result is `out` followed by every field rewritten,
      in the original order. */
  lemma {:induction false} RewriteAppends(out: Dict, rest: Dict, f: Entry -> Entry)
    requires KeysStayDistinct(rest, f)
    requires forall i :: 0 <= i < |rest| ==> f(rest[i]).0 !in Keys(out)
    ensures Rewrite(out, rest, f) == out + MapEntries(rest, f)
    decreases |rest|
  {
    if rest != [] {
      var e := f(rest[0]);
      SetAbsent(out, e.0, e.1);
      var out' := out + [e];
      forall i | 0 <= i < |rest[1..]| ensures f(rest[1..][i]).0 !in Keys(out') {
        assert rest[1..][i] == rest[i + 1];
        assert f(rest[i + 1]).0 != e.0;
        KeysAppend(out, e);
      }
      assert KeysStayDistinct(rest[1..], f) by {
        forall i, j | 0 <= i < j < |rest[1..]| ensures f(rest[1..][i]).0 != f(rest[1..][j]).0 {
          assert rest[1..][i] == rest[i + 1] && rest[1..][j] == rest[j + 1];
        }
      }
      RewriteAppends(out', rest[1..], f);
      assert out' + MapEntries(rest[1..], f) == out + MapEntries(rest, f);
    }
  }

  lemma {:induction false} KeysAppend(d: Dict, e: Entry)
    ensures Keys(d + [e]) == Keys(d) + {e.0}
    decreases |d|
  {
    if d != [] {
      assert (d + [e])[1..] == d[1..] + [e];
      KeysAppend(d[1..], e);
    }
  }

  /** A field of a record whose keys are all strings and whose integer values,
      where the key has a value table, are not listed in it. */
  ghost predicate Compactable(e: Entry, values: ValueTables)
  {
    && e.0.KStr?
    && !(e.1.VInt? && e.0.s in values && e.1.i in values[e.0.s])
  }

  lemma EntryRoundTrip(e: Entry, keys: KeyTable, values: ValueTables)
    requires Injective(keys) && AllInjective(values)
    requires Compactable(e, values)
    ensures DecodeEntry(keys, values)(EncodeEntry(Invert(keys), InvertValues(values))(e)) == e
  {
  }

  /** Decoding with a catalog undoes encoding with the inverse of the same
      catalog, for every record whose keys are distinct strings and in which no
      raw integer sits under an enumerated key where it would be read as a code. */
  lemma RoundTrip(d: Dict, keys: KeyTable, values: ValueTables)
    requires Injective(keys) && AllInjective(values)
    requires DistinctKeys(d)
    requires forall i :: 0 <= i < |d| ==> Compactable(d[i], values)
    ensures DecodeObj(EncodeObj(VDict(d), Invert(keys), InvertValues(values)), keys, values) == VDict(d)
  {
    var enc := EncodeEntry(Invert(keys), InvertValues(values));
    var dec := DecodeEntry(keys, values);
    forall i | 0 <= i < |d| ensures dec(enc(d[i])) == d[i] {
      EntryRoundTrip(d[i], keys, values);
    }
    assert KeysStayDistinct(d, enc) by {
      forall i, j | 0 <= i < j < |d| ensures enc(d[i]).0 != enc(d[j]).0 {
        assert dec(enc(d[i])).0 != dec(enc(d[j])).0;
      }
    }
    RewriteAppends([], d, enc);
    var e := MapEntries(d, enc);
    assert KeysStayDistinct(e, dec) by {
      forall i, j | 0 <= i < j < |e| ensures dec(e[i]).0 != dec(e[j]).0 {
        assert dec(e[i]) == d[i] && dec(e[j]) == d[j];
      }
    }
    RewriteAppends([], e, dec);
    assert MapEntries(e, dec) == d;
    assert Rewrite([], d, enc) == e;
    assert Rewrite([], e, dec) == d;
  }

  /** The keys of a rewrite are those of `out` and the rewritten keys of every
      field, whether or not some of them collide. */
  lemma {:induction false} RewriteKeys(out: Dict, rest: Dict, f: Entry -> Entry)
    ensures Keys(Rewrite(out, rest, f)) == Keys(out) + Keys(MapEntries(rest, f))
    decreases |rest|
  {
    if rest != [] {
      var e := f(rest[0]);
      RewriteKeys(Set(out, e.0, e.1), rest[1..], f);
      var m := MapEntries(rest, f);
      assert m[1..] == MapEntries(rest[1..], f);
    }
  }

  /** A key the encoding table compacts to a code that the decoding table does
      not list comes back as that integer, and its name is gone from the
      record. */
  lemma StrayCodeSurvives(d: Dict, name: string, keys: KeyCodes, values: ValueCodes, table: KeyTable, tables: ValueTables)
    requires S(name) in Keys(d) && name in keys && keys[name] !in table
    requires forall c :: c in table ==> table[c] != name
    ensures var r := DecodeObj(EncodeObj(VDict(d), keys, values), table, tables).fields;
      KInt(keys[name]) in Keys(r) && S(name) !in Keys(r)
  {
    var enc, dec := EncodeEntry(keys, values), DecodeEntry(table, tables);
    var m := MapEntries(d, enc);
    RewriteKeys([], d, enc);
    var e := Rewrite([], d, enc);
    var n := MapEntries(e, dec);
    RewriteKeys([], e, dec);
    var i := KeysWitness(d, S(name));
    assert m[i].0 == KInt(keys[name]);
    var j := KeysWitness(e, KInt(keys[name]));
    assert n[j].0 == KInt(keys[name]);
    forall k | 0 <= k < |n| ensures n[k].0 != S(name) {
      assert e[k].0 in Keys(m);
      var l := KeysWitness(m, e[k].0);
      assert e[k].0 == enc(d[l]).0;
    }
    NotInKeys(n, S(name));
  }

  /** Compaction never merges or invents fields: unknown keys and values keep
      their place and their form. In particular a record none of whose keys or
      string values the catalog lists is returned as it was. */
  lemma UnknownPassesThrough(d: Dict, keys: KeyCodes, values: ValueCodes)
    requires DistinctKeys(d)
    requires forall i :: 0 <= i < |d| ==> d[i].0.KInt? || d[i].0.s !in keys
    requires forall i :: 0 <= i < |d| ==>
      !(d[i].1.VStr? && d[i].0.KStr? && d[i].0.s in values && d[i].1.s in values[d[i].0.s])
    ensures EncodeObj(VDict(d), keys, values) == VDict(d)
  {
    var enc := EncodeEntry(keys, values);
    forall i | 0 <= i < |d| ensures enc(d[i]) == d[i] {
    }
    assert KeysStayDistinct(d, enc);
    RewriteAppends([], d, enc);
    assert MapEntries(d, enc) == d;
    assert Rewrite([], d, enc) == d;
  }
}
