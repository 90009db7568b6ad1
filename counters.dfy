/** The frame-counter bookkeeping of the converters: a configuration message is
    generated for a node the converter has not heard from, and again when the
    node's frame counter goes down (the node was rebooted). */
module Counters {

  /** Whether a packet with this counter makes the converter send a configuration
      message: the node is unknown, or its last counter is higher. */
  predicate GenerateConfig(last: map<string, int>, node: string, counter: int)
  {
    node !in last || last[node] > counter
  }

  /** The comparison ttn-kafka-converter makes instead: a configuration message
      whenever the counter went UP. */
  predicate GenerateConfigAsWritten(last: map<string, int>, node: string, counter: int)
  {
    node !in last || last[node] < counter
  }

  /** Whether each packet of a run from one node generated a configuration, under
      GenerateConfig or, when asWritten, under GenerateConfigAsWritten; every
      packet records its counter. */
  function Replay(last: map<string, int>, node: string, counters: seq<int>, asWritten: bool): (r: seq<bool>)
    ensures |r| == |counters|
    decreases |counters|
  {
    if counters == [] then []
    else
      var c := counters[0];
      var gen := if asWritten then GenerateConfigAsWritten(last, node, c) else GenerateConfig(last, node, c);
      [gen] + Replay(last[node := c], node, counters[1..], asWritten)
  }

  ghost predicate StrictlyIncreasing(s: seq<int>)
  {
    forall i, j :: 0 <= i < j < |s| ==> s[i] < s[j]
  }

  /** A node that keeps counting up gets exactly one configuration message: for
      its first packet. */
  lemma {:induction false} IncreasingConfiguresOnce(last: map<string, int>, node: string, counters: seq<int>)
    requires node !in last && counters != [] && StrictlyIncreasing(counters)
    ensures Replay(last, node, counters, false)[0]
    ensures forall i :: 0 < i < |counters| ==> !Replay(last, node, counters, false)[i]
  {
    var rest := Replay(last[node := counters[0]], node, counters[1..], false);
    assert Replay(last, node, counters, false) == [true] + rest;
    UpFromNoConfig(last[node := counters[0]], node, counters[1..]);
  }

  lemma {:induction false} UpFromNoConfig(last: map<string, int>, node: string, counters: seq<int>)
    requires node in last && StrictlyIncreasing(counters)
    requires forall i :: 0 <= i < |counters| ==> last[node] < counters[i]
    ensures forall i :: 0 <= i < |counters| ==> !Replay(last, node, counters, false)[i]
    decreases |counters|
  {
    if counters != [] {
      var last' := last[node := counters[0]];
      assert forall i :: 0 <= i < |counters[1..]| ==> last'[node] < counters[1..][i] by {
        forall i | 0 <= i < |counters[1..]| ensures last'[node] < counters[1..][i] {
          assert counters[1..][i] == counters[i + 1];
        }
      }
      UpFromNoConfig(last', node, counters[1..]);
      var rest := Replay(last', node, counters[1..], false);
      assert Replay(last, node, counters, false) == [false] + rest;
    }
  }

  /** In any run of packets from one node, a packet after the first generates
      a configuration exactly when its counter is below the previous packet's
      (a reboot) or, under the comparison as written, above it; the first packet
      is compared with the last counter seen, if any. */
  lemma {:induction false} ReplayComparesNeighbours(last: map<string, int>, node: string, counters: seq<int>, asWritten: bool)
    ensures counters != [] ==>
      (Replay(last, node, counters, asWritten)[0] <==>
        node !in last || if asWritten then last[node] < counters[0] else last[node] > counters[0])
    ensures forall i :: 0 < i < |counters| ==>
      (Replay(last, node, counters, asWritten)[i] <==>
        if asWritten then counters[i - 1] < counters[i] else counters[i - 1] > counters[i])
    decreases |counters|
  {
    if counters != [] {
      var last' := last[node := counters[0]];
      var rest := Replay(last', node, counters[1..], asWritten);
      var r := Replay(last, node, counters, asWritten);
      assert r[1..] == rest;
      ReplayComparesNeighbours(last', node, counters[1..], asWritten);
      forall i | 0 < i < |counters|
        ensures r[i] <==> if asWritten then counters[i - 1] < counters[i] else counters[i - 1] > counters[i]
      {
        assert r[i] == rest[i - 1];
        assert counters[1..][i - 1] == counters[i];
        if i > 1 {
          assert counters[1..][i - 2] == counters[i - 1];
        }
      }
    }
  }

  /** Under the comparison as written, a node counting up gets a configuration
      message for every packet, and a rebooted node gets none. */
  lemma {:induction false} AsWrittenConfiguresEveryPacket(last: map<string, int>, node: string, counters: seq<int>)
    requires StrictlyIncreasing(counters)
    requires node in last ==> forall i :: 0 <= i < |counters| ==> last[node] < counters[i]
    ensures forall i :: 0 <= i < |counters| ==> Replay(last, node, counters, true)[i]
    decreases |counters|
  {
    if counters != [] {
      var last' := last[node := counters[0]];
      assert forall i :: 0 <= i < |counters[1..]| ==> last'[node] < counters[1..][i] by {
        forall i | 0 <= i < |counters[1..]| ensures last'[node] < counters[1..][i] {
          assert counters[1..][i] == counters[i + 1];
        }
      }
      AsWrittenConfiguresEveryPacket(last', node, counters[1..]);
      var rest := Replay(last', node, counters[1..], true);
      assert Replay(last, node, counters, true) == [true] + rest;
    }
  }

  /** The packet after a reboot: as written, no configuration is generated. */
  lemma AsWrittenMissesReboot()
    ensures !GenerateConfigAsWritten(map["ttn/app/dev" := 500], "ttn/app/dev", 0)
    ensures GenerateConfig(map["ttn/app/dev" := 500], "ttn/app/dev", 0)
  {
  }
}
