/** Packet and byte totals: what the global counters, the per-source counters and the status
    logger say about each other at any moment. */
module Totals {
  import opened Bytes
  import opened Wrappers
  import opened Relay
  import H = Handlers

  function Sum<T>(xs: seq<T>, f: T -> nat): nat {
    if xs == [] then 0 else Sum(xs[..|xs| - 1], f) + f(xs[|xs| - 1])
  }

  lemma SumAppend<T>(xs: seq<T>, x: T, f: T -> nat)
    ensures Sum(xs + [x], f) == Sum(xs, f) + f(x)
  {
    assert (xs + [x])[..|xs|] == xs;
  }

  lemma {:induction false} SumUpdate<T>(xs: seq<T>, i: nat, x: T, f: T -> nat)
    requires i < |xs|
    ensures Sum(xs[i := x], f) + f(xs[i]) == Sum(xs, f) + f(x)
  {
    var last := |xs| - 1;
    if i < last {
      SumUpdate(xs[..last], i, x, f);
      assert xs[i := x][..last] == xs[..last][i := x];
    } else {
      assert xs[i := x][..last] == xs[..last];
    }
  }

  lemma {:induction false} SumZero<T>(xs: seq<T>, f: T -> nat)
    requires forall i :: 0 <= i < |xs| ==> f(xs[i]) == 0
    ensures Sum(xs, f) == 0
  {
    if xs != [] {
      SumZero(xs[..|xs| - 1], f);
    }
  }

  function PacketsOf(rt: Runtime): nat { rt.packets }

  function BytesOf(rt: Runtime): nat { rt.bytes }

  /** Counted globally, not yet counted for the source. */
  function OwedPackets(t: Task): nat {
    if t.publish.Publishing? && 1 <= t.publish.done <= 2 then 1 else 0
  }

  function OwedBytes(t: Task): nat {
    if t.publish.Publishing? && 2 <= t.publish.done <= 3 then |t.publish.frame.Payload()| else 0
  }

  ghost predicate Conserved(s: State) {
    && s.totalPackets == Sum(s.runtimes, PacketsOf) + Sum(s.tasks, OwedPackets)
    && s.totalBytes == Sum(s.runtimes, BytesOf) + Sum(s.tasks, OwedBytes)
  }

  lemma ConservedProceed(s: State, t: nat)
    requires Enabled(s, Proceed(t)) && s.tasks[t].publish.done <= RAW_SENT && Conserved(s)
    ensures Conserved(Effect(s, t))
  {
    var s' := Effect(s, t);
    var r := s.tasks[t].rt;
    hide Sum, Shape;
    SumUpdate(s.tasks, t, s'.tasks[t], OwedPackets);
    SumUpdate(s.tasks, t, s'.tasks[t], OwedBytes);
    SumUpdate(s.runtimes, r, s'.runtimes[r], PacketsOf);
    SumUpdate(s.runtimes, r, s'.runtimes[r], BytesOf);
    assert s'.tasks == s.tasks[t := s'.tasks[t]] && s'.runtimes == s.runtimes[r := s'.runtimes[r]];
  }

  lemma ConservedStep(s: State, a: Action)
    requires Shape(s) && Enabled(s, a) && Conserved(s)
    ensures Conserved(Apply(s, a))
  {
    hide H.Replay, H.RawReplay, Sum;
    var s' := Apply(s, a);
    match a
    case Proceed(t) => ConservedProceed(s, t);
    case Arrive(t, _, _) =>
      SumUpdate(s.tasks, t, s'.tasks[t], OwedPackets);
      SumUpdate(s.tasks, t, s'.tasks[t], OwedBytes);
    case AddSource(_, _) =>
      SumAppend(s.runtimes, s'.runtimes[|s.runtimes|], PacketsOf);
      SumAppend(s.runtimes, s'.runtimes[|s.runtimes|], BytesOf);
    case Spawn(rt) =>
      SumAppend(s.tasks, Task(rt, Idle), OwedPackets);
      SumAppend(s.tasks, Task(rt, Idle), OwedBytes);
    case _ =>
  }

  /** The logger has reported all it has seen, and has seen no more than there was. */
  predicate LoggerInStep(s: State) {
    var l := s.logger;
    && l.packetsReported == l.lastPackets <= s.totalPackets
    && l.bytesReported == l.lastBytes <= s.totalBytes
    && (l.loaded.Some? ==> l.lastPackets <= l.loaded.value <= s.totalPackets)
  }

  lemma LoggerStep(s: State, a: Action)
    requires Enabled(s, a) && LoggerInStep(s)
    ensures LoggerInStep(Apply(s, a))
  {
    hide H.Replay, H.RawReplay;
  }

  lemma {:induction false} AlwaysConserved(s: State, acts: seq<Action>)
    requires Init(s) && IsRun(s, acts)
    ensures Conserved(Exec(s, acts)) && LoggerInStep(Exec(s, acts))
  {
    if acts != [] {
      var past, a := acts[..|acts| - 1], acts[|acts| - 1];
      AlwaysConserved(s, past);
      AlwaysShape(s, past);
      ConservedStep(Exec(s, past), a);
      LoggerStep(Exec(s, past), a);
    }
  }

  /** With no publish in flight, the global totals are the sums over all runtimes there ever
      were, removed ones included. */
  lemma TotalsAreConserved(s: State, acts: seq<Action>)
    requires Init(s) && IsRun(s, acts) && Quiescent(Exec(s, acts))
    ensures Exec(s, acts).totalPackets == Sum(Exec(s, acts).runtimes, PacketsOf)
    ensures Exec(s, acts).totalBytes == Sum(Exec(s, acts).runtimes, BytesOf)
  {
    AlwaysConserved(s, acts);
    SumZero(Exec(s, acts).tasks, OwedPackets);
    SumZero(Exec(s, acts).tasks, OwedBytes);
  }

  /** In every interleaving the logger's two subtractions never underflow, and its deltas add
      up to the totals it last read. */
  lemma IntervalDeltasTelescope(s: State, acts: seq<Action>)
    requires Init(s) && IsRun(s, acts) && Exec(s, acts).logger.loaded.Some?
    ensures var s' := Exec(s, acts);
            && s'.logger.loaded.value - s'.logger.lastPackets >= 0
            && s'.totalBytes - s'.logger.lastBytes >= 0
            && var after := Apply(s', LoadBytes).logger;
               after.packetsReported == s'.logger.loaded.value && after.bytesReported == s'.totalBytes
  {
    AlwaysConserved(s, acts);
    hide Exec, Conserved;
  }
}
