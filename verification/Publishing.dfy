/** `publish_frame` as one undisturbed call: what it stores and sends, what any number of calls
    add up to, and that it is the seven effects of the interleaved machine in a row. */
module Publishing {
  import opened Bytes
  import opened Wrappers
  import Utf8
  import opened Multiplex
  import opened Metrics
  import opened State
  import R = Relay

  class MultiplexChannel {
    var log: seq<Data>  // the envelopes of everything ever sent

    constructor ()
      ensures log == []
    {
      log := [];
    }

    method Send(envelope: Data)
      modifies this
      ensures log == old(log) + [envelope]
    {
      log := log + [envelope];
    }
  }

  /** A message from upstream and the wall clock at its publication. */
  datatype Arrival = Arrival(frame: RawFrame, atMs: U64)

  /** All that publishing touches. */
  datatype Counters = Counters(
    raw: seq<RawFrame>,
    log: seq<Data>,
    sequence: U64,
    packets: nat,
    bytes: nat,
    totalPackets: nat,
    totalBytes: nat)

  ghost function CountersOf(runtime: SourceRuntime, multiplex: MultiplexChannel, throughput: ThroughputMetrics)
    : Counters
    reads runtime`raw, runtime`sequence, runtime`packets, runtime`bytes, multiplex, throughput
  {
    Counters(runtime.raw, multiplex.log, runtime.sequence, runtime.packets, runtime.bytes,
             throughput.packets, throughput.bytes)
  }

  function AfterOne(c: Counters, id: Utf8.Str, a: Arrival): Counters {
    var size := |a.frame.Payload()|;
    Counters(
      c.raw + [a.frame],
      c.log + [EncodeFrame(PublishedFields(id, c.sequence, a.atMs, a.frame))],
      (c.sequence + 1) % U64_SIZE,
      c.packets + 1,
      c.bytes + size,
      c.totalPackets + 1,
      c.totalBytes + size)
  }

  function After(c: Counters, id: Utf8.Str, arrivals: seq<Arrival>): Counters {
    if arrivals == [] then c
    else AfterOne(After(c, id, arrivals[..|arrivals| - 1]), id, arrivals[|arrivals| - 1])
  }

  method PublishFrame(id: Utf8.Str, runtime: SourceRuntime, multiplex: MultiplexChannel,
                      throughput: ThroughputMetrics, a: Arrival)
    modifies runtime`raw, runtime`sequence, runtime`packets, runtime`bytes, multiplex, throughput
    ensures CountersOf(runtime, multiplex, throughput)
            == AfterOne(old(CountersOf(runtime, multiplex, throughput)), id, a)
  {
    hide EncodeFrame;
    var size := |a.frame.Payload()|;
    throughput.RecordPacket(size);
    runtime.RecordPacket(size);
    var sequence := runtime.NextSequence();
    runtime.SendRaw(a.frame);
    var multiplexed := EncodeMultiplexFrame(id, sequence, a.atMs, a.frame.Kind(), a.frame.Payload());
    multiplex.Send(multiplexed);
  }

  lemma AfterNone(c: Counters, id: Utf8.Str)
    ensures After(c, id, []) == c
  {
  }

  lemma AfterSnoc(c: Counters, id: Utf8.Str, arrivals: seq<Arrival>, a: Arrival)
    ensures After(c, id, arrivals + [a]) == AfterOne(After(c, id, arrivals), id, a)
  {
    assert (arrivals + [a])[..|arrivals|] == arrivals;
  }

  lemma {:induction false} AfterConcat(c: Counters, id: Utf8.Str, first: seq<Arrival>, more: seq<Arrival>)
    ensures After(c, id, first + more) == After(After(c, id, first), id, more)
  {
    hide AfterOne;
    if more == [] {
      assert first + more == first;
    } else {
      var last := |more| - 1;
      AfterConcat(c, id, first, more[..last]);
      AfterSnoc(c, id, first + more[..last], more[last]);
      assert first + more == first + more[..last] + [more[last]];
    }
  }

  function SizeOf(arrivals: seq<Arrival>): nat {
    if arrivals == [] then 0 else SizeOf(arrivals[..|arrivals| - 1]) + |arrivals[|arrivals| - 1].frame.Payload()|
  }

  predicate Small(arrivals: seq<Arrival>) {
    forall a <- arrivals :: |a.frame.Payload()| < U32_SIZE
  }

  /** Both channels carry the messages in order, the k-th envelope decodes to the k-th message
      under the k-th sequence number from here, and both pairs of counters grow by the same
      count and size. */
  ghost predicate AddsUp(c: Counters, d: Counters, id: Utf8.Str, arrivals: seq<Arrival>) {
    var n := |arrivals|;
    && |d.raw| == |c.raw| + n && d.raw[..|c.raw|] == c.raw
    && |d.log| == |c.log| + n && d.log[..|c.log|] == c.log
    && (forall k :: 0 <= k < n ==>
          && d.raw[|c.raw| + k] == arrivals[k].frame
          && StrictDecode(d.log[|c.log| + k])
             == Some(PublishedFields(id, (c.sequence + k) % U64_SIZE, arrivals[k].atMs, arrivals[k].frame)))
    && d.sequence == (c.sequence + n) % U64_SIZE
    && d.packets == c.packets + n && d.totalPackets == c.totalPackets + n
    && d.bytes == c.bytes + SizeOf(arrivals) && d.totalBytes == c.totalBytes + SizeOf(arrivals)
  }

  lemma AddsUpFrom(c: Counters, id: Utf8.Str)
    ensures AddsUp(c, c, id, [])
  {
    assert c.raw[..|c.raw|] == c.raw && c.log[..|c.log|] == c.log;
  }

  lemma AddsUpOneMore(c: Counters, b: Counters, id: Utf8.Str, past: seq<Arrival>, a: Arrival)
    requires AddsUp(c, b, id, past) && |id| < U16_SIZE && |a.frame.Payload()| < U32_SIZE
    ensures AddsUp(c, AfterOne(b, id, a), id, past + [a])
  {
    hide EncodeFrame, StrictDecode, Utf8.Valid;
    R.SequenceWraps(c.sequence + |past|);
    StrictRoundTrip(PublishedFields(id, b.sequence, a.atMs, a.frame));
    assert (past + [a])[..|past|] == past;
  }

  /** What undisturbed publishes add up to. */
  lemma {:induction false} PublishesAddUp(c: Counters, id: Utf8.Str, arrivals: seq<Arrival>)
    requires |id| < U16_SIZE && Small(arrivals)
    ensures AddsUp(c, After(c, id, arrivals), id, arrivals)
  {
    hide AddsUp, AfterOne;
    if arrivals == [] {
      AddsUpFrom(c, id);
    } else {
      var past, a := arrivals[..|arrivals| - 1], arrivals[|arrivals| - 1];
      PublishesAddUp(c, id, past);
      AddsUpOneMore(c, After(c, id, past), id, past, a);
      assert past + [a] == arrivals;
    }
  }

  // ----- The interleaved machine -----

  function Envelopes(log: seq<R.Entry>): seq<Data> {
    seq(|log|, i requires 0 <= i < |log| => R.Envelope(log[i]))
  }

  function CountersIn(s: R.State, r: nat): Counters
    requires r < |s.runtimes|
  {
    var rt := s.runtimes[r];
    Counters(rt.raw, Envelopes(s.log), rt.sequence, rt.packets, rt.bytes, s.totalPackets, s.totalBytes)
  }

  /** Task `t` taking its next `n` effects with nobody in between. */
  ghost function Effects(s: R.State, t: nat, n: nat): R.State
    requires t < |s.tasks| && s.tasks[t].rt < |s.runtimes|
    requires n > 0 ==> s.tasks[t].publish.Publishing? && s.tasks[t].publish.done + n <= R.RAW_SENT + 1
    decreases n
  {
    if n == 0 then s else Effects(R.Effect(s, t), t, n - 1)
  }

  /** Left alone, the seven effects of a publish are one call of `publish_frame`. */
  lemma UndisturbedEffectsAreOneCall(s: R.State, t: nat)
    requires t < |s.tasks| && s.tasks[t].rt < |s.runtimes|
    requires s.tasks[t].publish.Publishing? && s.tasks[t].publish.done == 0
    requires s.runtimes[s.tasks[t].rt].sequence == s.runtimes[s.tasks[t].rt].issued % U64_SIZE
    ensures var r, p, e := s.tasks[t].rt, s.tasks[t].publish, Effects(s, t, 7);
            && |e.runtimes| == |s.runtimes| && e.tasks == s.tasks[t := R.Task(r, R.Idle)]
            && CountersIn(e, r) == AfterOne(CountersIn(s, r), s.runtimes[r].id, Arrival(p.frame, p.timestampMs))
  {
    hide EncodeFrame, Utf8.Valid;
    var r := s.tasks[t].rt;
    var s1 := R.Effect(s, t);
    var s2 := R.Effect(s1, t);
    var s3 := R.Effect(s2, t);
    var s4 := R.Effect(s3, t);
    var s5 := R.Effect(s4, t);
    var s6 := R.Effect(s5, t);
    var s7 := R.Effect(s6, t);
    assert Effects(s, t, 7) == s7;
  }
}
