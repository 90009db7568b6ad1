/** The channel catalog: integer codes for configuration keys and, per key, for
    its enumerated values. Each component ships its own copy. */
module Catalog {

  /** code -> key name */
  type KeyTable = map<int, string>
  /** key name -> (code -> value name) */
  type ValueTables = map<string, map<int, string>>
  /** key name -> code (the inverted key table) */
  type KeyCodes = map<string, int>
  /** key name -> (value name -> code) (the inverted value tables) */
  type ValueCodes = map<string, map<string, int>>

  ghost predicate Injective(m: map<int, string>)
  {
    forall a, b :: a in m && b in m && a != b ==> m[a] != m[b]
  }

  ghost predicate CodesInjective(m: map<string, int>)
  {
    forall a, b :: a in m && b in m && a != b ==> m[a] != m[b]
  }

  ghost predicate AllInjective(v: ValueTables)
  {
    forall k :: k in v ==> Injective(v[k])
  }

  ghost predicate IsInverse(m: map<int, string>, inv: map<string, int>)
  {
    && (forall c :: c in m ==> m[c] in inv && inv[m[c]] == c)
    && (forall s :: s in inv ==> inv[s] in m && m[inv[s]] == s)
  }

  /** `{v: k for k, v in m.items()}` for a table whose names are distinct. */
  function Invert(m: map<int, string>): (inv: map<string, int>)
    requires Injective(m)
    ensures IsInverse(m, inv) && CodesInjective(inv)
  {
    map c | c in m :: m[c] := c
  }

  /** The inverted value tables, one per key name. */
  function InvertValues(v: ValueTables): (inv: ValueCodes)
    requires AllInjective(v)
    ensures inv.Keys == v.Keys
    ensures forall k :: k in v ==> IsInverse(v[k], inv[k])
  {
    map k | k in v :: Invert(v[k])
  }

  // ---------------------------------------------------------------------------
  // The shipped tables

  /** The key table every component ships (ttn-redis-converter, ttn-kafka-converter,
      ttn-redis-decoder). */
  const FullKeys: KeyTable := map[
    1 := "channel_id", 2 := "quantity", 3 := "unit", 4 := "sensor",
    5 := "item_type", 6 := "measured", 7 := "divider"]

  /** The value tables of ttn-redis-converter. */
  const RedisConverterValues: ValueTables := map[
    "quantity" := RedisConverterQuantities,
    "unit" := RedisConverterUnits,
    "sensor" := Sensors,
    "item_type" := ItemTypes]

  const RedisConverterQuantities: map<int, string> := map[
    1 := "temperature", 2 := "humidity", 3 := "voltage",
    4 := "ambient_light", 5 := "particulate_matter", 6 := "position"]

  const RedisConverterUnits: map<int, string> := map[
    1 := "degrees_celcius", 2 := "percent_rh", 3 := "volt",
    4 := "ug_per_cubic_meter", 5 := "lux", 6 := "degrees"]

  const Sensors: map<int, string> := map[1 := "Si2701"]

  const ItemTypes: map<int, string> := map[1 := "node", 2 := "channel"]

  /** The value tables of ttn-redis-decoder. */
  const RedisDecoderValues: ValueTables := map[
    "quantity" := DecoderQuantities,
    "unit" := DecoderUnits,
    "sensor" := Sensors,
    "item_type" := ItemTypes]

  const DecoderQuantities: map<int, string> := map[
    1 := "temperature", 2 := "humidity", 3 := "voltage",
    4 := "ambient_light", 5 := "latitude", 6 := "longitude",
    7 := "particulate_matter"]

  const DecoderUnits: map<int, string> := map[
    1 := "degree_celcius", 2 := "percent_rh", 3 := "volt",
    4 := "ug_per_cubic_meter", 5 := "lux", 6 := "degrees"]

  /** The value tables of ttn-kafka-converter; they list the same names as the
      Redis decoder's. */
  const KafkaConverterValues: ValueTables := map[
    "quantity" := map[
      1 := "temperature", 2 := "humidity", 3 := "voltage",
      4 := "ambient_light", 5 := "latitude", 6 := "longitude",
      7 := "particulate_matter"],
    "unit" := map[
      1 := "degree_celcius", 2 := "percent_rh", 3 := "volt",
      4 := "ug_per_cubic_meter", 5 := "lux", 6 := "degrees"],
    "sensor" := map[1 := "Si2701"],
    "item_type" := map[1 := "node", 2 := "channel"]]

  /** The smaller key table of ttn-kafka-decoder: no codes 6 and 7. */
  const KafkaDecoderKeys: KeyTable := map[
    1 := "channel_id", 2 := "quantity", 3 := "unit", 4 := "sensor", 5 := "item_type"]

  const KafkaDecoderValues: ValueTables := map[
    "quantity" := map[1 := "temperature", 2 := "humidity", 3 := "voltage"],
    "unit" := map[1 := "degree_celcius", 2 := "percent_rh", 3 := "volt"],
    "sensor" := Sensors,
    "item_type" := ItemTypes]

  lemma FullKeysInjective()
    ensures Injective(FullKeys)
  {
  }

  lemma RedisConverterQuantitiesInjective()
    ensures Injective(RedisConverterQuantities)
  {
  }

  lemma RedisConverterUnitsInjective()
    ensures Injective(RedisConverterUnits)
  {
  }

  lemma DecoderQuantitiesInjective()
    ensures Injective(DecoderQuantities)
  {
  }

  lemma DecoderUnitsInjective()
    ensures Injective(DecoderUnits)
  {
  }

  lemma RedisConverterValuesInjective()
    ensures AllInjective(RedisConverterValues)
  {
    RedisConverterQuantitiesInjective();
    RedisConverterUnitsInjective();
    assert Injective(Sensors) && Injective(ItemTypes);
    forall k | k in RedisConverterValues ensures Injective(RedisConverterValues[k]) {
      var t := RedisConverterValues[k];
      assert t == RedisConverterQuantities || t == RedisConverterUnits || t == Sensors || t == ItemTypes;
    }
  }

  lemma RedisDecoderValuesInjective()
    ensures AllInjective(RedisDecoderValues)
  {
    DecoderQuantitiesInjective();
    DecoderUnitsInjective();
    assert Injective(Sensors) && Injective(ItemTypes);
    forall k | k in RedisDecoderValues ensures Injective(RedisDecoderValues[k]) {
      var t := RedisDecoderValues[k];
      assert t == DecoderQuantities || t == DecoderUnits || t == Sensors || t == ItemTypes;
    }
  }

  lemma KafkaConverterValuesInjective()
    ensures AllInjective(KafkaConverterValues)
  {
    KafkaConverterMatchesRedisDecoder();
    RedisDecoderValuesInjective();
  }

  /** CONFIG_PACKET_KEYS_INVERTED of both converters. */
  function FullKeyCodes(): (r: KeyCodes)
    ensures IsInverse(FullKeys, r) && CodesInjective(r)
  {
    FullKeysInjective();
    Invert(FullKeys)
  }

  /** CONFIG_PACKET_VALUES_INVERTED of ttn-redis-converter. */
  function RedisConverterValueCodes(): (r: ValueCodes)
    ensures r.Keys == RedisConverterValues.Keys
    ensures forall k :: k in RedisConverterValues ==> IsInverse(RedisConverterValues[k], r[k])
  {
    RedisConverterValuesInjective();
    InvertValues(RedisConverterValues)
  }

  /** CONFIG_PACKET_VALUES_INVERTED of ttn-kafka-converter. */
  function KafkaConverterValueCodes(): (r: ValueCodes)
    ensures r.Keys == KafkaConverterValues.Keys
    ensures forall k :: k in KafkaConverterValues ==> IsInverse(KafkaConverterValues[k], r[k])
  {
    KafkaConverterValuesInjective();
    InvertValues(KafkaConverterValues)
  }

  /** Although both files say they hold a copy of the decoder's tables, the Redis
      converter gives codes 5 and 6 of "quantity" to other names than the Redis
      decoder, and spells unit 1 differently. */
  lemma RedisCatalogsDisagree()
    ensures RedisConverterValues["quantity"][5] == "particulate_matter"
    ensures RedisDecoderValues["quantity"][5] == "latitude"
    ensures RedisConverterValues["quantity"][6] == "position"
    ensures RedisDecoderValues["quantity"][6] == "longitude"
    ensures RedisConverterValues["unit"][1] == "degrees_celcius"
    ensures RedisDecoderValues["unit"][1] == "degree_celcius"
  {
    ConverterTables();
    DecoderTables();
    assert RedisConverterQuantities[5] == "particulate_matter";
    assert DecoderQuantities[5] == "latitude";
    assert RedisConverterQuantities[6] == "position";
    assert DecoderQuantities[6] == "longitude";
    assert RedisConverterUnits[1] == "degrees_celcius";
    assert DecoderUnits[1] == "degree_celcius";
  }

  lemma ConverterTables()
    ensures RedisConverterValues["quantity"] == RedisConverterQuantities
    ensures RedisConverterValues["unit"] == RedisConverterUnits
  {
  }

  lemma DecoderTables()
    ensures RedisDecoderValues["quantity"] == DecoderQuantities
    ensures RedisDecoderValues["unit"] == DecoderUnits
  {
  }

  /** The Kafka generation's converter and the Redis decoder do agree. */
  lemma KafkaConverterMatchesRedisDecoder()
    ensures KafkaConverterValues == RedisDecoderValues
  {
  }
}
