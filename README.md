# Uplink converters and decoders of mjs_backend_design

This project models the uplink pipeline of the backend in Dafny, in its two
generations, and proves properties of that model. The pipeline has two stages:

- The converters (`ttn-redis-converter`, `ttn-kafka-converter`) take a sensor
  packet from The Things Network. Each one reads the packet bit by bit according
  to its port and length, or the flag byte on port 13. It then builds data
  records `{"channel_id": c, "value": v}` and channel descriptors, compacts the
  descriptors with a catalog of integer codes, and produces a configuration
  message when a node is new or was rebooted, then a data message.
- The decoders (`ttn-redis-decoder`, `ttn-kafka-decoder`) receive those
  messages. A configuration message has its codes expanded and is folded into
  `{"node_config", "channel_config"}`. A data message becomes a dictionary of
  named channels: each reading is merged with its channel configuration. The
  Redis decoder also scales the value (`value / divider + offset`). Names are
  made unique with `_2`, `_3`, ….

Shared code is modelled once:

| module | what |
|---|---|
| `Values` | Python values, and dicts as association lists in insertion order |
| `Bits` | the `bitstring` reader as a `BitStream` class |
| `Layout` | field runs, and packet layouts by port and length |
| `Records` | data records and descriptors |
| `Catalog` | the code tables |
| `Codec` | `encode_cbor_obj` / `decode_cbor_obj` |
| `Counters` | the frame-counter rule |
| `Messages` | message envelopes and ids |
| `ConfigEntries` | `decode_config_packet` / `decode_config_entries`, identical in both decoders |
| `Naming` | the suffix search for free channel names |

Each component has its own module: `RedisConverter`, `KafkaConverter`,
`RedisDecoder` and `KafkaDecoder`.

How the source is modelled:

- Code that loops is modelled as methods with loops or recursion:
  - the bit reads;
  - the field reads;
  - the extra-value loop;
  - the cbor object rewrites;
  - the entry loops of the decoders;
  - the name search.

  Each such method is proved equal to a specification function.
- The Kafka converter's length checks are a chain of `if`/`elif` tests with
  no loop. They are modelled as the method `KafkaConverter.CheckLength`, which
  is proved to accept exactly the lengths of `KafkaConverter.LengthOk`.
- The converter's `last_counter_seen` is a field of a `Converter` class.
  `ProcessData` updates it.
- Integers are unbounded.
- Every exception the code raises becomes a `Failure`:
  - a `ReadError` when the payload ends early;
  - a `KeyError`, `TypeError`, `ZeroDivisionError` or `NameError` in the decoders;
  - an `InvalidDocument` when the Kafka decoder writes a document with a key
    that is not a string to MongoDB.

  It aborts the packet or message; an `Outcome` is `Ignored` (dropped with a
  warning), `Failed` or `Done`.

Behaviour of the code that the model keeps and proves as written:

- **Redis converter, port 13.** The lux value is gated by its flag bit like
  the other optional values. The assignment `have_lux = True`
  (ttn-redis-converter/app.py:236) is dead: the next line overwrites it with
  the bit (ttn-redis-converter/app.py:237). `RedisConverter.Port13Decode` and
  `RedisConverter.FlagPresence` state this.
- **Redis decoder.** It cannot scale a list value. The position reading
  `[lat, lon]` and the extra values fail with `TypeError` as soon as their
  channel has a configuration (`RedisDecoder.DataEntryErrors`).
- **Redis converter catalog.** It disagrees with the Redis decoder's:
  - quantity codes 5 and 6;
  - the spelling of unit 1.

  `Catalog.RedisCatalogsDisagree` states this.
- **Kafka decoder, missing `channel_id`.** An entry without `channel_id`
  reuses the previous entry's id, and the first such entry raises
  `NameError` (`KafkaDecoder.MissingIdReusesPrevious`).
- **Kafka decoder, return value.** `decode_data_message` returns the data of
  the last channel, not the whole record (`KafkaDecoder.ReturnsLastChannel`).
- **Kafka converter, counter rule.** It sends a configuration whenever the
  counter went up, and none after a reboot (see Findings). The model of that
  component keeps the comparison as written.
- **Kafka decoder, key table.** It lists only codes 1 to 5, so `measured` (6)
  and `divider` (7) from the Kafka converter stay integer keys in the decoded
  configuration (`KafkaDecoder.UnlistedCodesStayIntegers`,
  `KafkaDecoder.ConverterDividersUnread`). The comment at
  ttn-kafka-decoder/app.py:123 notes that MongoDB takes only string keys.
- **Kafka decoder, MongoDB writes.** The driver refuses a document with a key
  that is not a string, at any depth. The model adds this rule to both writes:
  - the configuration write at ttn-kafka-decoder/app.py:92;
  - the data write at ttn-kafka-decoder/app.py:175.

  A refused write raises InvalidDocument. `process_message` catches it and
  returns None (ttn-kafka-decoder/app.py:31-36).
  - A configuration is stored exactly when all its keys are strings
    (`KafkaDecoder.ConfigStoredOnlyWithStringKeys`).
  - The latitude descriptor of every Kafka converter configuration arrives
    with the key 7. A configuration that holds it as a channel configuration
    is refused (`KafkaDecoder.ConverterDividersUnstorable`,
    `KafkaDecoder.UnstorableChannelRefused`).
- **Packets that are not lists.** Both decoders only warn about them and
  iterate them anyway: a dict over its keys, a string over its characters
  (`Values.Iterate`). An empty one decodes like the empty list.
- **Duplicate checks.** They compare the raw id with keys that are strings:
  - in `decode_config_entries`, a repeated integer id overwrites the earlier
    entry (`ConfigEntries.DuplicateGuard`);
  - in `decode_data_entries`, an id is skipped only when it equals an existing
    channel name (`RedisDecoder.SkippedReadings`).

## Model

| member | source | states |
|---|---|---|
| Bits.UintAt | ttn-redis-converter/app.py:249-250 | a `uint:n` token is a number below 2^n |
| Bits.IntAt | ttn-redis-converter/app.py:253-261 | an `int:n` token lies in [-2^(n-1), 2^(n-1)) |
| Bits.IntAtSign | ttn-redis-converter/app.py:253-261 | an `int:n` token is negative exactly when its first bit is set |
| Bits.UintAtByte | ttn-redis-converter/app.py:249-250 | a byte-aligned `uint:8` token is that byte: the firmware version is the first byte of the payload |
| Bits.BitStream.constructor | ttn-redis-converter/app.py:96 | a new stream is over the payload and at bit 0 |
| Bits.BitStream.ReadUint | ttn-redis-converter/app.py:265 | `read("uint:n")` gives the token and advances n bits; when fewer than n bits remain it gives nothing (ReadError) and does not move |
| Bits.BitStream.ReadInt | ttn-redis-converter/app.py:258 | `read("int:n")` gives the two's complement token and advances n bits, or fails without moving |
| Bits.BitStream.ReadBool | ttn-redis-converter/app.py:237-242 | `read("bool")` gives the next bit and advances one bit, or fails at the end |
| Layout.ReadFields | ttn-redis-converter/app.py:252-279 | the readings of a run are available exactly when the run fits in the payload, with one record per field |
| Layout.ReadValue | ttn-redis-converter/app.py:253-255 | reading one field's tokens (`uint:w`, `int:w`, or two `int:w` in a list) gives the field's value at the current position and advances by its width |
| Layout.ReadNext | ttn-redis-converter/app.py:258 | reading one more field extends the records by that field's record, or fails only when the field does not fit |
| Layout.ReadRun | ttn-redis-converter/app.py:252-279 | reading a run of fields in sequence gives the records of the whole run, or ReadError when some field does not fit |
| Layout.FixedPresence | ttn-redis-converter/app.py:177-230 | an accepted length on ports 10, 11 and 12 is exactly the size of its layout. The firmware version is present unless the port is 10, lux only on port 12, supply always on 11 and 12 |
| Layout.FixedPresenceExact | ttn-redis-converter/app.py:177-230 | every admissible layout of a fixed port is accepted at its own length, so the length alone decides the layout |
| Records.ReadChannels | ttn-redis-converter/app.py:252-279 | the records read for a run carry the channel ids of its fields, in order |
| Records.Describe | ttn-redis-converter/app.py:101-165 | a channel descriptor carries its channel's id |
| Records.NodeDescriptor | ttn-redis-converter/app.py:98-100 | the node descriptor carries no channel id |
| Records.ConfigListChannels | ttn-redis-converter/app.py:98-165 | the configuration list is the node descriptor followed by one descriptor per channel, each with that channel's id |
| Records.ConverterTableNames | ttn-redis-converter/app.py:34-54 | both converters ship value tables for exactly `quantity`, `unit`, `sensor` and `item_type` |
| Records.ConfigListRestorable | ttn-redis-converter/app.py:319-324 | every descriptor has distinct string keys, and none has an integer under a key with a value table, so compaction cannot confuse its integers with codes |
| Catalog.Invert | ttn-redis-converter/app.py:56 | inverting an injective table gives its exact inverse, itself injective |
| Catalog.InvertValues | ttn-redis-converter/app.py:57-60 | the inverted value tables have the same keys and invert each table |
| Catalog.FullKeyCodes | ttn-redis-converter/app.py:56 | `CONFIG_PACKET_KEYS_INVERTED` is the inverse of the shared key table |
| Catalog.RedisConverterValueCodes | ttn-redis-converter/app.py:57-60 | `CONFIG_PACKET_VALUES_INVERTED` of the Redis converter inverts each of its value tables |
| Catalog.KafkaConverterValueCodes | ttn-kafka-converter/app.py:61-62 | `CONFIG_PACKET_VALUES_INVERTED` of the Kafka converter inverts each of its value tables |
| Catalog.FullKeysInjective | ttn-redis-converter/app.py:23-31 | no two key codes share a name |
| Catalog.RedisConverterValuesInjective | ttn-redis-converter/app.py:34-54 | no two codes of a Redis converter value table share a name |
| Catalog.KafkaConverterValuesInjective | ttn-kafka-converter/app.py:32-58 | no two codes of a Kafka converter value table share a name |
| Catalog.KafkaConverterMatchesRedisDecoder | ttn-kafka-converter/app.py:31-58 | the Kafka converter's value tables are the Redis decoder's |
| Catalog.RedisCatalogsDisagree | ttn-redis-converter/app.py:40-45 | the Redis converter's copy of the tables differs from the decoder's: quantity codes 5 and 6 have other names, and unit 1 is spelled differently |
| Codec.EncodeCborObj | ttn-redis-converter/app.py:63-83 | the loop of `encode_cbor_obj` computes EncodeObj, the field-by-field rewrite assigned into a fresh dict; a non-dict is returned as it is |
| Codec.DecodeCborObj | ttn-redis-decoder/app.py:368-392 | the loop of `decode_cbor_obj` computes DecodeObj; a non-dict is returned as it is |
| Codec.RewritePreservesDistinct | ttn-redis-converter/app.py:68-83 | the rewritten record is a dict with distinct keys, even when rewritten keys collide |
| Codec.RoundTrip | ttn-redis-decoder/app.py:368-392 | decoding with a catalog undoes encoding with its inverse. This holds for every record whose keys are distinct strings and which has no raw integer that the catalog would read as a code |
| Codec.UnknownPassesThrough | ttn-redis-converter/app.py:63-83 | a record none of whose keys or string values the catalog lists is returned unchanged |
| Codec.StrayCodeSurvives | ttn-kafka-decoder/app.py:278-300 | when compaction turns a key into a code that the expanding table does not list, the code stays an integer key and the name is gone |
| Messages.ProduceOverwrites | ttn-redis-converter/app.py:332-335 | `produce_message` sets the port and payload in place. A second message produced from the rewritten object equals one produced from the original, and only the port changes |
| Messages.NodeIdInjective | ttn-redis-converter/app.py:87-88 | two uplinks have the same node id only when they come from the same application and device, given application ids without '/' |
| Messages.MeasIdInjective | ttn-redis-decoder/app.py:115-116 | measurement ids of one message under distinct channel names are distinct |
| Counters.ReplayComparesNeighbours | ttn-redis-converter/app.py:305-314 | in any run of packets from one node, each packet after the first sends a configuration exactly when its counter is below the previous one (a reboot), or, with the Kafka comparison, above it. The first packet is compared with the last counter seen, and sends one when there is none |
| Counters.IncreasingConfiguresOnce | ttn-redis-converter/app.py:305-314 | a new node that keeps counting up gets exactly one configuration, for its first packet |
| Counters.AsWrittenConfiguresEveryPacket | ttn-kafka-converter/app.py:285-294 | with the comparison as written, a node counting up gets a configuration with every packet |
| Counters.AsWrittenMissesReboot | ttn-kafka-converter/app.py:289 | with the comparison as written, the packet after a reboot gets no configuration, while the intended rule generates one |
| RedisConverter.ExtraValues | ttn-redis-converter/app.py:281-297 | each extra value is below 2^32 and takes at least six bits of the rest of the payload |
| RedisConverter.ExtraValuesSized | ttn-redis-converter/app.py:290-293 | every extra value has its own size of 1 to 32 bits and is below 2 to the power of that size. The first size is the `uint:5` field at the start plus one |
| RedisConverter.ReadExtraValue | ttn-redis-converter/app.py:286-297 | one size and value pair is read exactly when the spec function yields a value there; otherwise the loop stops |
| RedisConverter.ReadExtraValues | ttn-redis-converter/app.py:284-297 | the extra-value loop collects exactly ExtraValues: it stops at the end, with fewer than five bits left, or when a value would not fit |
| RedisConverter.ReadHeader | ttn-redis-converter/app.py:177-250 | the port checks, the flag byte of port 13 and the firmware version give Header, and leave the stream where the readings start |
| RedisConverter.ReadReadings | ttn-redis-converter/app.py:252-279 | the reads from position to battery give the records of the packet's fields |
| RedisConverter.ReadBody | ttn-redis-converter/app.py:252-300 | the readings and then, on a flagged port 13 packet, the extra-value record on channel 8 |
| RedisConverter.DecodePayload | ttn-redis-converter/app.py:95-300 | the reads of `process_data` decode the packet as Decode says |
| RedisConverter.FieldsWidth | ttn-redis-converter/app.py:252-279 | the readings take 72 bits, plus 8, 16, 32 and 8 for supply, lux, particulate matter and battery |
| RedisConverter.FixedPortsDecode | ttn-redis-converter/app.py:177-279 | a packet accepted on ports 10 to 12 always decodes, and every bit of it is the firmware version or a reading |
| RedisConverter.IgnoredPackets | ttn-redis-converter/app.py:177-247 | a packet is dropped exactly when its port is unknown, or it is on ports 10 to 12 with a length no layout has |
| RedisConverter.Port13Decode | ttn-redis-converter/app.py:231-279 | a port 13 packet is never dropped. It fails exactly when it is shorter than its flag byte, firmware version and flagged readings |
| RedisConverter.DataChannels | ttn-redis-converter/app.py:252-300 | the data records carry the channel ids of the packet's fields in reading order, then channel 8 for the extra values |
| RedisConverter.ChannelIds | ttn-redis-converter/app.py:98-300 | the channels described are the channels read, in the same order |
| RedisConverter.DescriptorsMatchData | ttn-redis-converter/app.py:98-300 | after the node descriptor, the i-th descriptor describes the channel of the i-th data record |
| RedisConverter.RejectedPacketKeepsState | ttn-redis-converter/app.py:177-314 | a dropped or failing packet produces no message and leaves the counter map unchanged |
| RedisConverter.AcceptedPacketMessages | ttn-redis-converter/app.py:302-329 | a decoded packet records its counter for its own node only. It produces the data message last, on port 2, preceded on port 1 by a configuration with one more entry than the data exactly when a configuration is due |
| RedisConverter.ConfigRoundTrip | ttn-redis-converter/app.py:319-324 | expanding each compacted descriptor with the component's own catalog gives the descriptor back |
| RedisConverter.Converter.constructor | ttn-redis-converter/app.py:92 | the converter starts with no counters seen |
| RedisConverter.Converter.ProcessData | ttn-redis-converter/app.py:95-329 | `process_data` yields the messages of Step and updates `last_counter_seen` as Step does |
| KafkaConverter.CheckLength | ttn-kafka-converter/app.py:198-219 | the port and length tests accept exactly LengthOk |
| KafkaConverter.LengthOkIsFixedLayout | ttn-kafka-converter/app.py:200-219 | the interval tests accept a length exactly when a fixed layout has it |
| KafkaConverter.GatesAreRemainders | ttn-kafka-converter/app.py:248-279 | each optional value is read when the port asks for it or enough bits remain after the readings before it |
| KafkaConverter.GatesMatchLayout | ttn-kafka-converter/app.py:221-279 | on an accepted length, the bits-remaining gates pick out exactly the fixed layout of that length |
| KafkaConverter.FieldsWidth | ttn-kafka-converter/app.py:224-279 | for the same optional values the readings take as many bits as the Redis converter's: the layouts differ only in channel numbering |
| KafkaConverter.ReadSegment | ttn-kafka-converter/app.py:262-273 | an optional segment is read when its gate is open and skipped otherwise |
| KafkaConverter.ReadTail | ttn-kafka-converter/app.py:255-279 | lux, particulate matter and battery, each behind its gate, complete the readings of the gated layout |
| KafkaConverter.ReadReadings | ttn-kafka-converter/app.py:224-279 | the reads from latitude to battery give the records of the layout the gates select |
| KafkaConverter.DecodePayload | ttn-kafka-converter/app.py:122-279 | the reads of `process_data` decode the packet as Decode says |
| KafkaConverter.AcceptedPacketsDecode | ttn-kafka-converter/app.py:200-279 | a packet is dropped exactly when the length check rejects it. It never fails with ReadError, and an accepted packet is read to its last bit |
| KafkaConverter.AgreesWithRedisConverter | ttn-kafka-converter/app.py:200-279 | on ports 10 to 12 both generations accept the same packets and find the same optional values and firmware version |
| KafkaConverter.ChannelIds | ttn-kafka-converter/app.py:125-279 | the channels described are the channels read, in the same order |
| KafkaConverter.DescriptorsMatchData | ttn-kafka-converter/app.py:125-279 | after the node descriptor, the i-th descriptor describes the channel of the i-th data record |
| KafkaConverter.RejectedPacketKeepsState | ttn-kafka-converter/app.py:200-219 | a dropped packet produces nothing and leaves the counter map unchanged |
| KafkaConverter.AcceptedPacketMessages | ttn-kafka-converter/app.py:282-305 | a decoded packet records its counter for its node. It produces the data message last, on port 2. A configuration with one more entry than the data precedes it on port 1 exactly when the node is new or its counter went up, as written at line 289; a rebooted node gets none |
| KafkaConverter.ConfigRoundTrip | ttn-kafka-converter/app.py:298-300 | expanding each compacted descriptor with the component's own catalog gives the descriptor back |
| KafkaConverter.Converter.constructor | ttn-kafka-converter/app.py:120 | the converter starts with no counters seen |
| KafkaConverter.Converter.ProcessData | ttn-kafka-converter/app.py:122-305 | `process_data` produces the messages of Step, with the comparison `last_counter < msg_counter` as written, and updates `last_counter_seen` as Step does |
| Messages.MakeTtnNodeId | ttn-redis-converter/app.py:87-88 | defines `make_ttn_node_id`, `ttn/<app_id>/<dev_id>`; the same code as ttn-redis-decoder/app.py:107-108 |
| Messages.MakeMsgId | ttn-redis-decoder/app.py:111-112 | defines `make_msg_id`, the node id and the message time |
| Messages.MakeMeasId | ttn-redis-decoder/app.py:115-116 | defines `make_meas_id`, the message id and the channel name |
| Messages.ProduceMessage | ttn-redis-converter/app.py:332-340 | defines `produce_message`, the uplink with its port replaced and the payload |
| RedisConverter.Decode | ttn-redis-converter/app.py:177-300 | defines the reading part of `process_data`: the port and length checks, then the readings and extra values |
| RedisConverter.Step | ttn-redis-converter/app.py:95-329 | defines `process_data` on a counter map: the decoded packet, the counter rule and the messages produced |
| KafkaConverter.LengthOk | ttn-kafka-converter/app.py:200-219 | defines the accepted lengths of ports 10, 11 and 12 |
| KafkaConverter.Gates | ttn-kafka-converter/app.py:248-279 | defines the optional values read, from the port and the bits left after each earlier read |
| KafkaConverter.Decode | ttn-kafka-converter/app.py:198-279 | defines the reading part of `process_data`: the length check, then the gated readings |
| KafkaConverter.Step | ttn-kafka-converter/app.py:122-305 | defines `process_data` on a counter map, with the comparison of line 289 |
| ConfigEntries.Absorb | ttn-redis-decoder/app.py:172-191 | defines one entry of the loop of `decode_config_entries` |
| ConfigEntries.DecodeConfigEntries | ttn-redis-decoder/app.py:168-194 | defines `decode_config_entries`, the fold of Absorb and the two-key result |
| RedisDecoder.DecodeDataEntry | ttn-redis-decoder/app.py:315-329 | defines `decode_data_entry`, the merge with the configuration and the scaling |
| RedisDecoder.AddReading | ttn-redis-decoder/app.py:277-310 | defines one entry of the loop of `decode_data_entries` |
| RedisDecoder.ConfigMessageRow | ttn-redis-decoder/app.py:120-155 | defines `decode_config_message`, the `Config` row it stores |
| RedisDecoder.DataMessageRow | ttn-redis-decoder/app.py:198-272 | defines `decode_data_message`, the bundle and measurements it stores, given the latest configuration |
| RedisDecoder.DecodeMessage | ttn-redis-decoder/app.py:97-104 | defines `decode_message`, the dispatch on the port |
| KafkaDecoder.DecodeDataEntry | ttn-kafka-decoder/app.py:238-245 | defines `decode_data_entry`, the reading updated with the configuration |
| KafkaDecoder.AddReading | ttn-kafka-decoder/app.py:205-234 | defines one entry of the loop of `decode_data_entries`, with the carried `chan_id` |
| KafkaDecoder.ConfigMessageDoc | ttn-kafka-decoder/app.py:67-96 | defines `decode_config_message`, including the refused write of a document with a key that is not a string |
| KafkaDecoder.DataMessageDoc | ttn-kafka-decoder/app.py:137-199 | defines `decode_data_message`, given the document `find_one` returned, including the refused write |
| KafkaDecoder.DecodeMessage | ttn-kafka-decoder/app.py:46-53 | defines `decode_message`, the dispatch on the port |
| Values.Iterate | ttn-redis-decoder/app.py:277 | `for x in v` runs over the items of a list, the keys of a dict or the characters of a string, one per element; any other value is not iterable (TypeError) |
| Values.IterateEmpty | ttn-redis-decoder/app.py:277 | a loop runs no iteration exactly over the empty list, dict and string |
| ConfigEntries.DecodeConfigPacket | ttn-redis-decoder/app.py:157-165 | the packet gives one expanded entry for each element it iterates over. After the warning about a packet that is not a list, a dict or string is still iterated, and only a number fails |
| ConfigEntries.NonListPackets | ttn-redis-decoder/app.py:157-194 | an empty dict or string packet gives the empty configuration; any other dict or string packet fails on its first entry, which is not a dict |
| ConfigEntries.DecodeConfigEntriesLoop | ttn-redis-decoder/app.py:168-194 | the loop of `decode_config_entries` computes the fold of Absorb over the entries |
| ConfigEntries.ConfigMessageKeys | ttn-redis-decoder/app.py:193-194 | a decoded configuration has exactly the keys `node_config` and `channel_config` |
| ConfigEntries.NodeEntryMerges | ttn-redis-decoder/app.py:174-176 | a node entry's fields other than `item_type` override the node configuration; nothing else changes |
| ConfigEntries.ChannelEntryStored | ttn-redis-decoder/app.py:177-185 | a channel entry with a new id is stored under `str(id)` without `item_type` and `channel_id`; no other channel changes |
| ConfigEntries.MalformedEntriesDropped | ttn-redis-decoder/app.py:173-191 | an entry without `item_type`, of an unknown type, or a channel without `channel_id` changes nothing |
| ConfigEntries.DuplicateGuard | ttn-redis-decoder/app.py:178-185 | a repeated string id keeps the first entry, but a repeated integer id overwrites it |
| ConfigEntries.ChannelKeysAreStrings | ttn-redis-decoder/app.py:184-185 | every stored channel key is a string |
| Naming.SuffixedInjective | ttn-redis-decoder/app.py:305 | distinct numbers give distinct suffixed names |
| Naming.FirstFree | ttn-redis-decoder/app.py:304-308 | the search ends at the least n >= 2 whose suffixed name is free |
| Naming.FreshName | ttn-redis-decoder/app.py:301-310 | the stored name is never taken; it is the name itself when free, else `name_n` for the least free n >= 2 |
| Naming.PickName | ttn-redis-decoder/app.py:303-308 | the `itertools.count(start=2)` loop finds FreshName |
| RedisDecoder.Scaled | ttn-redis-decoder/app.py:325 | scaling succeeds exactly when value, divider and offset are numbers and the divider is not zero |
| RedisDecoder.DataEntryMerge | ttn-redis-decoder/app.py:315-329 | in a decoded reading a configuration key other than `divider` and `offset` takes precedence; otherwise `value` is the scaled value and any other key is the reading's own |
| RedisDecoder.DataEntryErrors | ttn-redis-decoder/app.py:322-325 | a missing value raises KeyError, a list value TypeError, and an integer zero divider ZeroDivisionError |
| RedisDecoder.DecodeDataEntries | ttn-redis-decoder/app.py:274-312 | the loop of `decode_data_entries` computes the fold of AddReading over the entries |
| RedisDecoder.SkippedReadings | ttn-redis-decoder/app.py:279-290 | an entry without `channel_id`, or whose raw id is already a channel name, leaves the channels unchanged |
| RedisDecoder.AddReadingKeeps | ttn-redis-decoder/app.py:286-310 | a reading never overwrites an earlier channel: names stay distinct, old names keep their data, at most one channel is added |
| RedisDecoder.IntegerIdAddsOne | ttn-redis-decoder/app.py:286-310 | with only string names so far, an integer id always adds exactly one channel |
| RedisDecoder.FoldKeepsNamesDistinct | ttn-redis-decoder/app.py:274-312 | the decoded bundle's channel names are distinct |
| RedisDecoder.MeasurementIdsDistinct | ttn-redis-decoder/app.py:248-257 | when every channel name of a bundle is a string, its measurements get distinct ids. An integer name 5 and a string name "5" would share one |
| RedisDecoder.NonListDataPackets | ttn-redis-decoder/app.py:274-312 | a dict or string data packet is iterated: an empty one stores the bundle of the empty list, and any other one fails on its first entry |
| RedisDecoder.Dispatch | ttn-redis-decoder/app.py:97-104 | port 1 gives a configuration record (never dropped), port 2 a bundle, and any other port nothing |
| KafkaDecoder.Dispatch | ttn-kafka-decoder/app.py:46-53 | port 1 gives a configuration document, port 2 a data document, and any other port nothing |
| KafkaDecoder.DataEntryMerge | ttn-kafka-decoder/app.py:238-245 | a decoded reading is the reading with every configuration key copied over it; nothing is scaled or removed |
| KafkaDecoder.DecodeDataEntries | ttn-kafka-decoder/app.py:202-236 | the loop of `decode_data_entries`, including its `chan_id` variable, computes ScanChannels |
| KafkaDecoder.MissingIdReusesPrevious | ttn-kafka-decoder/app.py:207-214 | an entry without `channel_id` raises NameError when it comes first, and is otherwise handled under the previous id (dropped when that is a name already) |
| KafkaDecoder.NoConfigFails | ttn-kafka-decoder/app.py:216-219 | without a configuration document, the first reading with a new id raises TypeError |
| KafkaDecoder.AddReadingKeeps | ttn-kafka-decoder/app.py:212-234 | a reading never overwrites an earlier channel: names stay distinct, old names keep their data, at most one channel is added |
| KafkaDecoder.FoldKeepsNamesDistinct | ttn-kafka-decoder/app.py:202-236 | the decoded channel names are distinct |
| KafkaDecoder.ReturnsLastChannel | ttn-kafka-decoder/app.py:161-199 | the data message returns the whole record when there are no channels, and otherwise only the last channel's data; measurement ids match the channels |
| KafkaDecoder.NonListDataPackets | ttn-kafka-decoder/app.py:202-236 | a dict or string data packet is iterated: an empty one gives the document of the empty list, and any other one fails on its first entry |
| KafkaDecoder.UnlistedCodesStayIntegers | ttn-kafka-decoder/app.py:249-255 | a record compacted by the Kafka converter and expanded by the Kafka decoder keeps `measured` and `divider` as the integer keys 6 and 7 |
| KafkaDecoder.ConverterDividersUnread | ttn-kafka-decoder/app.py:249-255 | every configuration message of the Kafka converter reaches this decoder with its latitude divider under the integer key 7 and no `divider` |
| KafkaDecoder.StoredConfigDoc | ttn-kafka-decoder/app.py:81-93 | the document passed to `update_one` holds the message id under `_id` and keeps `channel_config`; the returned copy lacks only `_id` |
| KafkaDecoder.ConfigDocServesLookups | ttn-kafka-decoder/app.py:67-96 | when a configuration message is stored, a later data message finds in that document exactly the channel configurations that were decoded |
| KafkaDecoder.ConfigStoredOnlyWithStringKeys | ttn-kafka-decoder/app.py:81-92 | a decoded configuration is stored and returned exactly when every key in it, at any depth, is a string; otherwise the write raises InvalidDocument |
| KafkaDecoder.StoredDocStringKeyed | ttn-kafka-decoder/app.py:81-89 | `_id`, `node_id` and `timestamp` are added as string keys with string values, so the document has only string keys exactly when the configuration does |
| KafkaDecoder.UnstorableChannelRefused | ttn-kafka-decoder/app.py:81-92 | a configuration message fails with InvalidDocument when one of its channel configurations holds a key that is not a string |
| KafkaDecoder.ConverterDividersUnstorable | ttn-kafka-decoder/app.py:92 | the expanded latitude descriptor of every Kafka converter configuration has a key that is not a string, so it cannot be stored |
| KafkaDecoder.DataStoredOnlyWithStringKeys | ttn-kafka-decoder/app.py:161-175 | a data document is stored exactly when the decoded channels and the configuration it embeds have only string keys. A channel named by an integer `quantity` makes the write raise InvalidDocument |
| KafkaDecoder.AgreesWithRedisDecoder | ttn-kafka-decoder/app.py:202-236 | when every entry has a `channel_id` and there is no `channel_config`, both decoders decode the same channels |

## Left out

- I/O is outside the model, as are the main loops, environment variables and logging. This covers:
  - MQTT subscriptions and the `on_message` handlers;
  - Redis `xadd`/`xread`;
  - the Kafka producer and consumer;
  - MongoDB, apart from its string-key rule (see below), Elasticsearch and the Pony ORM store.
- The decoders' database lookups become parameters:
  - `RedisDecoder.DataMessageRow` takes the data of the node's latest `Config` row, or None;
  - `KafkaDecoder.DataMessageDoc` takes the document `find_one` returned, or None.
- JSON, base64 and CBOR encoding are left out. Messages are modelled as decoded values. An `Envelope` carries the payload before `cbor2.dumps` and base64.
- Of an uplink, only `app_id`, `dev_id`, `port`, `counter` and `metadata.time` are modelled. Timestamps stay strings (no `parse_date`).
- Floating point is left out. `VFloat` and the scaled result `VScaled` are opaque. A floating-point zero divider is not detected, and `measured:size` 2.5 is kept as its text.
- `sources` is not modelled: the copies of the uplink and configuration stored with both Kafka decoder documents and the Redis decoder's Elasticsearch body. The string-key rule of the Kafka decoder's data write still covers the configuration document it embeds.
- Of MongoDB, the model keeps only the driver's refusal of keys that are not strings (`InvalidDocument`). It leaves out upserts, other BSON limits, and the per-channel writes at ttn-kafka-decoder/app.py:195. Each of those documents is part of the data document already written.
- KafkaDecoder.ConverterDividersUnstorable: the model proves that the expanded latitude descriptor of every Kafka converter configuration cannot be stored. It also proves that a configuration holding it as a channel configuration is refused. It does not carry the proof through the fold of `decode_config_entries` to state that every Kafka converter configuration message is refused.
- The removal of empty gateway `time` fields is left out (ttn-redis-decoder/app.py:130-132 and 223-225, ttn-kafka-decoder/app.py:77-79 and 157-159).
- The Redis decoder's `entry_id` and the links between `Bundle`, `Measurement` and `Config` are left out, as is `get_last_entry_id`.
- The Kafka converter's `on_message` handler calls `traceback.print_tb(e.__traceback__)` with `e` undefined (ttn-kafka-converter/app.py:117). An exception from `process_data` therefore escapes the handler as a NameError. The handler is not part of this model.
- The Kafka decoder queries `{"$lt": 'timestamp'}` (ttn-kafka-decoder/app.py:147). This compares with the literal string, not the message time. Which document the query returns is not modelled; the document is a parameter.
- ConfigEntries.Absorb, RedisDecoder.AddReading and KafkaDecoder.AddReading fail with TypeError on an entry that is not a dict. Python's `dict(entry)` also accepts a list of pairs and the empty string, and it raises ValueError for other strings, such as the one-character entries of a string packet.
- Values.Iterate has no case for CBOR byte strings, which the model's values do not include.
- The values have no bool or None (CBOR true, false and null). Values.AsKey treats only integers and strings as hashable, so a float channel id or dictionary key is modelled as a TypeError, although Python hashes it.
- The node-configuration dict of the converters (`node_config["firmware_version"] = …`) is modelled as a value built once. The same holds for `lux_config["divider"] = 4`, which `RedisConverter.LuxChannel` gives by port, and for the uplink object that `produce_message` rewrites. Aliasing of these dicts is not modelled; `Messages.ProduceOverwrites` shows the second message does not depend on the first.
- ttn-kafka-producer/app.py is not part of this model.

## Findings

| source | as written | input that shows it | evidently intended | confidence | as-written member | corrected member |
|---|---|---|---|---|---|---|
| ttn-kafka-converter/app.py:289 | `if last_counter < msg_counter: generate_config = True`: a configuration is generated whenever the counter went up, and not after a reboot | last counter 500 for node `ttn/app/dev`, then a packet with counter 0 (`Counters.AsWrittenMissesReboot`); a node counting up gets one with every packet (`Counters.AsWrittenConfiguresEveryPacket`) | the Redis converter's rule `last_counter > msg_counter` (ttn-redis-converter/app.py:309) and the comment "If the node was rebooted, simulate a new config": one configuration on first contact and one after each reboot (`Counters.ReplayComparesNeighbours`, `Counters.IncreasingConfiguresOnce`). The Redis converter model uses this rule; `KafkaConverter.Step` keeps the comparison as written | high (not executed) | Counters.GenerateConfigAsWritten | Counters.GenerateConfig |
