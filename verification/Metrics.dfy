/** Process-wide packet counters and the logger that reports their growth. */
module Metrics {
  class ThroughputMetrics {
    var packets: nat
    var bytes: nat

    constructor ()
      ensures packets == 0 && bytes == 0
    {
      packets, bytes := 0, 0;
    }

    method RecordPacket(size: nat)
      modifies this
      ensures packets == old(packets) + 1 && bytes == old(bytes) + size
    {
      packets := packets + 1;
      bytes := bytes + size;
    }

    /** What was counted since the last call, and the marks for the next one. */
    method IntervalDelta(lastPackets: nat, lastBytes: nat)
      returns (deltaPackets: nat, deltaBytes: nat, newPackets: nat, newBytes: nat)
      requires lastPackets <= packets && lastBytes <= bytes
      ensures newPackets == packets && lastPackets + deltaPackets == packets
      ensures newBytes == bytes && lastBytes + deltaBytes == bytes
    {
      deltaPackets := packets - lastPackets;
      deltaBytes := bytes - lastBytes;
      newPackets, newBytes := packets, bytes;
    }
  }

  function SizeOf(interval: seq<nat>): nat {
    if interval == [] then 0 else SizeOf(interval[..|interval| - 1]) + interval[|interval| - 1]
  }

  method RecordAll(metrics: ThroughputMetrics, interval: seq<nat>)
    modifies metrics
    ensures metrics.packets == old(metrics.packets) + |interval|
    ensures metrics.bytes == old(metrics.bytes) + SizeOf(interval)
  {
    for i := 0 to |interval|
      invariant metrics.packets == old(metrics.packets) + i
      invariant metrics.bytes == old(metrics.bytes) + SizeOf(interval[..i])
    {
      metrics.RecordPacket(interval[i]);
      assert interval[..i + 1][..i] == interval[..i];
    }
    assert interval[..|interval|] == interval;
  }

  /** The logger: each report covers exactly the packets of its own interval, the first one also
      whatever was counted before. */
  method LogThroughput(metrics: ThroughputMetrics, intervals: seq<seq<nat>>) returns (reports: seq<(nat, nat)>)
    modifies metrics
    ensures |reports| == |intervals|
    ensures forall i :: 0 < i < |intervals| ==> reports[i] == (|intervals[i]|, SizeOf(intervals[i]))
    ensures intervals != [] ==>
              reports[0] == (old(metrics.packets) + |intervals[0]|, old(metrics.bytes) + SizeOf(intervals[0]))
  {
    var lastPackets, lastBytes := 0, 0;
    reports := [];
    for i := 0 to |intervals|
      invariant if i == 0 then lastPackets == lastBytes == 0
                else lastPackets == metrics.packets && lastBytes == metrics.bytes
      invariant i == 0 ==> metrics.packets == old(metrics.packets) && metrics.bytes == old(metrics.bytes)
      invariant |reports| == i
      invariant forall j :: 0 < j < i ==> reports[j] == (|intervals[j]|, SizeOf(intervals[j]))
      invariant i > 0 ==>
                  reports[0] == (old(metrics.packets) + |intervals[0]|, old(metrics.bytes) + SizeOf(intervals[0]))
    {
      RecordAll(metrics, intervals[i]);
      var deltaPackets, deltaBytes;
      deltaPackets, deltaBytes, lastPackets, lastBytes := metrics.IntervalDelta(lastPackets, lastBytes);
      reports := reports + [(deltaPackets, deltaBytes)];
    }
  }
}
