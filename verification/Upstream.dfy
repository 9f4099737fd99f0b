/** The task that keeps one source connected, and the delays it puts between its attempts. The
    surroundings - outcomes of attempts, messages, cancellation, passing time and the policy in
    force at each look - come as a script. */
module Upstream {
  import opened Bytes
  import Utf8
  import opened Wrappers
  import opened Config
  import opened Multiplex
  import opened State
  import opened Metrics
  import opened Publishing

  /** What the upstream connection, or the cancellation of the task, delivers next. `ponged` says
      whether the answer to a ping could be sent. */
  datatype Incoming =
    | Text(text: Utf8.Str, atMs: U64) | Binary(data: Data, atMs: U64) | Ping(ponged: bool) | Pong | Raw
    | Close | Broken | End | Cancelled

  /** Whether a session goes on after a message. */
  predicate Continues(m: Incoming) {
    m.Text? || m.Binary? || m.Pong? || m.Raw? || (m.Ping? && m.ponged)
  }

  predicate Fails(m: Incoming) {
    m.Broken? || (m.Ping? && !m.ponged)
  }

  /** The session ends with an error. */
  ghost predicate EndsBadly(messages: seq<Incoming>) {
    exists i :: 0 <= i < |messages| && (forall j :: 0 <= j < i ==> Continues(messages[j])) && Fails(messages[i])
  }

  lemma EndsAt(messages: seq<Incoming>, i: nat)
    requires i <= |messages| && forall j :: 0 <= j < i ==> Continues(messages[j])
    ensures i == |messages| ==> !EndsBadly(messages)
    ensures i < |messages| && !Continues(messages[i]) ==> (EndsBadly(messages) <==> Fails(messages[i]))
  {
  }

  function ArrivalOf(m: Incoming): seq<Arrival> {
    match m
    case Text(text, atMs) => [Arrival(RawFrame.Text(text), atMs)]
    case Binary(data, atMs) => [Arrival(RawFrame.Binary(data), atMs)]
    case _ => []
  }

  /** What a session publishes before its end. */
  function Published(messages: seq<Incoming>): seq<Arrival> {
    if messages == [] || !Continues(messages[0]) then []
    else ArrivalOf(messages[0]) + Published(messages[1..])
  }

  lemma PublishedNothing()
    ensures Published([]) == []
  {
  }

  lemma PublishedOneMore(messages: seq<Incoming>)
    requires messages != []
    ensures Published(messages)
            == if Continues(messages[0]) then ArrivalOf(messages[0]) + Published(messages[1..]) else []
  {
  }

  lemma PublishedSoFar(messages: seq<Incoming>, i: nat, published: seq<Arrival>)
    requires i < |messages| && Published(messages) == published + Published(messages[i..])
    ensures !Continues(messages[i]) ==> Published(messages) == published
    ensures Continues(messages[i]) ==>
              Published(messages) == published + ArrivalOf(messages[i]) + Published(messages[i + 1..])
  {
    assert messages[i..][1..] == messages[i + 1..];
    PublishedOneMore(messages[i..]);
    hide Published, ArrivalOf, Utf8.Valid;
    assert published + [] == published;
    if Continues(messages[i]) {
      var a, rest := ArrivalOf(messages[i]), Published(messages[i + 1..]);
      assert published + (a + rest) == published + a + rest;
    }
  }

  datatype Attempt =
    | Interrupted                                  // cancelled before it began
    | Failed
    | Session(policy: ReconnectPolicy, connectedAtMs: nat, messages: seq<Incoming>)

  /** One round of the task's loop. Times are durations: until the attempt is over, from there to
      the look at the clock, and beyond the intended end of the wait. */
  datatype Round = Round(
    cancelledBefore: bool,
    disabled: bool,
    attempt: Attempt,
    busy: nat,
    cancelledAfter: bool,
    lag: nat,
    policy: ReconnectPolicy,
    cancelledAsleep: bool,
    oversleep: nat,
    policyAfter: ReconnectPolicy)

  datatype Event =
    | Opened(initialDelay: nat)
    | Wait(delay: nat, duration: nat, degraded: bool, begun: nat)

  datatype Task = Task(stopped: bool, delay: nat, offlineSince: Option<nat>, clock: nat, log: seq<Event>)

  function Start(first: ReconnectPolicy): Task {
    Task(false, first.initialDelay, None, 0, [])
  }

  function Min(a: nat, b: nat): nat {
    if a <= b then a else b
  }

  /** A round, once its attempt is over and the task has not been cancelled. */
  function Pause(t: Task, r: Round): Task
    requires t.offlineSince.Some? && t.offlineSince.value <= t.clock
  {
    var now := t.clock + r.lag;
    var degraded := now - t.offlineSince.value >= r.policy.offlineThreshold;
    var duration := if degraded then r.policy.offlineDelay else t.delay;
    t.(stopped := r.cancelledAsleep,
       clock := now + duration + r.oversleep,
       log := t.log + [Wait(t.delay, duration, degraded, now)],
       delay := if !r.cancelledAsleep && duration == t.delay then Min(2 * t.delay, r.policyAfter.maxDelay) else t.delay)
  }

  /** What an attempt that was made leaves behind. */
  function Attempted(t: Task, r: Round): (u: Task)
    requires !r.attempt.Interrupted? && (t.offlineSince.Some? ==> t.offlineSince.value <= t.clock)
    ensures u.offlineSince.Some? && u.offlineSince.value <= u.clock
  {
    var at := t.clock + r.busy;
    if r.attempt.Session? then
      var delay := r.attempt.policy.initialDelay;
      t.(delay := delay, offlineSince := Some(at), clock := at, log := t.log + [Opened(delay)])
    else
      t.(offlineSince := Some(if t.offlineSince.Some? then t.offlineSince.value else at), clock := at)
  }

  function Step(t: Task, r: Round): (u: Task)
    requires t.offlineSince.Some? ==> t.offlineSince.value <= t.clock
    ensures u.offlineSince.Some? ==> u.offlineSince.value <= u.clock
  {
    if t.stopped then t
    else if r.cancelledBefore then t.(stopped := true)
    else if r.disabled then t.(clock := t.clock + r.busy)
    else if r.attempt.Interrupted? then t.(stopped := true)
    else
      var tried := Attempted(t, r);
      if r.cancelledAfter then tried.(stopped := true) else Pause(tried, r)
  }

  function Run(first: ReconnectPolicy, script: seq<Round>): (t: Task)
    ensures t.offlineSince.Some? ==> t.offlineSince.value <= t.clock
  {
    if script == [] then Start(first)
    else Step(Run(first, script[..|script| - 1]), script[|script| - 1])
  }

  predicate Cancels(r: Round) {
    r.cancelledBefore || (!r.disabled && (r.attempt.Interrupted? || r.cancelledAfter || r.cancelledAsleep))
  }

  lemma {:induction false} StoppedStays(first: ReconnectPolicy, script: seq<Round>, i: nat)
    requires i <= |script| && Run(first, script[..i]).stopped
    ensures Run(first, script) == Run(first, script[..i])
    decreases |script| - i
  {
    if i == |script| {
      assert script[..i] == script;
    } else {
      assert script[..i + 1][..i] == script[..i];
      if Run(first, script[..i + 1]).stopped {
        StoppedStays(first, script, i + 1);
      }
    }
  }

  lemma AtRound(first: ReconnectPolicy, script: seq<Round>, i: nat)
    requires i < |script|
    ensures Run(first, script[..i + 1]) == Step(Run(first, script[..i]), script[i])
    ensures Run(first, script[..i + 1]).stopped ==> Run(first, script) == Run(first, script[..i + 1])
  {
    assert script[..i + 1][..i] == script[..i];
    if Run(first, script[..i + 1]).stopped {
      StoppedStays(first, script, i + 1);
    }
  }

  function PublishedIn(attempt: Attempt): seq<Arrival> {
    if attempt.Session? then Published(attempt.messages) else []
  }

  /** What the sessions of a script publish, up to where the task is cancelled. */
  function AllPublished(script: seq<Round>): seq<Arrival> {
    if script == [] then []
    else
      var r := script[0];
      (if r.cancelledBefore || r.disabled then [] else PublishedIn(r.attempt))
      + if Cancels(r) then [] else AllPublished(script[1..])
  }

  lemma PublishedAtRound(c: Counters, id: Utf8.Str, script: seq<Round>, i: nat, arrivals: seq<Arrival>)
    requires i < |script| && AllPublished(script) == arrivals + AllPublished(script[i..])
    ensures var r := script[i];
            var now := if r.cancelledBefore || r.disabled then arrivals else arrivals + PublishedIn(r.attempt);
            AllPublished(script) == if Cancels(r) then now else now + AllPublished(script[i + 1..])
    ensures var more := PublishedIn(script[i].attempt);
            After(c, id, arrivals + more) == After(After(c, id, arrivals), id, more)
  {
    hide Published, PublishedIn, After, AfterOne;
    assert script[i..][1..] == script[i + 1..];
    AfterConcat(c, id, arrivals, PublishedIn(script[i].attempt));
  }

  lemma AtEnds(first: ReconnectPolicy, script: seq<Round>)
    ensures Run(first, script[..0]) == Start(first) && script[..|script|] == script
    ensures AllPublished(script[|script|..]) == [] && script[0..] == script
  {
  }

  // ----- The code -----

  method ForwardSource(id: Utf8.Str, runtime: SourceRuntime, multiplex: MultiplexChannel, throughput: ThroughputMetrics,
                       messages: seq<Incoming>)
    returns (ok: bool)
    modifies runtime`raw, runtime`sequence, runtime`packets, runtime`bytes, multiplex, throughput
    ensures CountersOf(runtime, multiplex, throughput)
            == After(old(CountersOf(runtime, multiplex, throughput)), id, Published(messages))
    ensures !ok <==> EndsBadly(messages)
  {
    hide Utf8.Valid, Published, After, AfterOne, CountersOf, EndsBadly;
    assert messages[0..] == messages && messages[|messages|..] == [];
    PublishedNothing();
    ghost var before := CountersOf(runtime, multiplex, throughput);
    ghost var published: seq<Arrival> := [];
    AfterNone(before, id);
    for i := 0 to |messages|
      invariant Published(messages) == published + Published(messages[i..])
      invariant CountersOf(runtime, multiplex, throughput) == After(before, id, published)
      invariant forall j :: 0 <= j < i ==> Continues(messages[j])
    {
      var message := messages[i];
      PublishedSoFar(messages, i, published);
      EndsAt(messages, i);
      match message {
        case Cancelled => return true;
        case Text(text, atMs) =>
          PublishFrame(id, runtime, multiplex, throughput, Arrival(RawFrame.Text(text), atMs));
        case Binary(data, atMs) =>
          PublishFrame(id, runtime, multiplex, throughput, Arrival(RawFrame.Binary(data), atMs));
        case Ping(ponged) =>
          if !ponged {
            return false;
          }
        case Pong =>
        case Raw =>
        case Close => return true;
        case Broken => return false;
        case End => return true;
      }
      if ArrivalOf(message) == [] {
        assert published + ArrivalOf(message) == published;
      } else {
        AfterSnoc(before, id, published, ArrivalOf(message)[0]);
      }
      published := published + ArrivalOf(message);
    }
    assert published + [] == published;
    EndsAt(messages, |messages|);
    return true;
  }

  method ConnectSource(runtime: SourceRuntime, attempt: Attempt)
    modifies runtime`state, runtime`connectedSinceMs
    ensures attempt.Interrupted? ==>
              runtime.state == old(runtime.state) && runtime.connectedSinceMs == old(runtime.connectedSinceMs)
    ensures attempt.Failed? ==> runtime.state == Disconnected && runtime.connectedSinceMs == 0
    ensures attempt.Session? ==> runtime.state == Connected && runtime.connectedSinceMs == attempt.connectedAtMs
  {
    if attempt.Interrupted? {
      return;
    }
    runtime.SetState(Connecting);
    runtime.SetState(Handshaking);
    if attempt.Session? {
      runtime.SetState(Connected);
      runtime.MarkConnected(attempt.connectedAtMs);
    } else {
      runtime.MarkDisconnected();
      runtime.SetState(Disconnected);
    }
  }

  /** Connects and, if that works out, relays until the session is over. */
  method Attend(id: Utf8.Str, runtime: SourceRuntime, multiplex: MultiplexChannel, throughput: ThroughputMetrics,
                attempt: Attempt)
    modifies runtime`state, runtime`connectedSinceMs
    modifies runtime`raw, runtime`sequence, runtime`packets, runtime`bytes, multiplex, throughput
    ensures CountersOf(runtime, multiplex, throughput)
            == After(old(CountersOf(runtime, multiplex, throughput)), id, PublishedIn(attempt))
    ensures !attempt.Interrupted? ==> runtime.state == Disconnected && runtime.connectedSinceMs == 0
    ensures attempt.Interrupted? ==>
              runtime.state == old(runtime.state) && runtime.connectedSinceMs == old(runtime.connectedSinceMs)
  {
    hide Utf8.Valid, Published, After, AfterOne;
    AfterNone(CountersOf(runtime, multiplex, throughput), id);
    ConnectSource(runtime, attempt);
    if attempt.Session? {
      var _ := ForwardSource(id, runtime, multiplex, throughput, attempt.messages);
      runtime.MarkDisconnected();
      runtime.SetState(Disconnected);
    }
  }

  /** The state a round leaves its runtime in: that of the wait it logged, unless the source was
      disabled. */
  function StateAfter(r: Round, log: seq<Event>): ConnectionState {
    if r.disabled then Disabled
    else if log != [] && log[|log| - 1].Wait? && log[|log| - 1].degraded then ReconnectWaitDegraded
    else ReconnectWait
  }

  /** The task, for as long as the script goes and as the only one of its runtime. */
  method RunSourceForever(id: Utf8.Str, runtime: SourceRuntime, multiplex: MultiplexChannel,
                          throughput: ThroughputMetrics, first: ReconnectPolicy, script: seq<Round>)
    returns (returned: bool, log: seq<Event>)
    modifies runtime`state, runtime`connectedSinceMs
    modifies runtime`raw, runtime`sequence, runtime`packets, runtime`bytes, multiplex, throughput
    ensures returned == Run(first, script).stopped && log == Run(first, script).log
    ensures CountersOf(runtime, multiplex, throughput)
            == After(old(CountersOf(runtime, multiplex, throughput)), id, AllPublished(script))
    ensures !returned && script != [] ==>
              runtime.connectedSinceMs == 0 && runtime.state == StateAfter(script[|script| - 1], log)
  {
    hide Utf8.Valid, Published, PublishedIn, Run, AllPublished, After, AfterOne, CountersOf;
    AtEnds(first, script);
    ghost var before := CountersOf(runtime, multiplex, throughput);
    ghost var arrivals: seq<Arrival> := [];
    AfterNone(before, id);
    var reconnectDelay := first.initialDelay;
    var offlineSince: Option<nat> := None;
    var clock: nat := 0;
    log := [];
    for i := 0 to |script|
      invariant Run(first, script[..i]) == Task(false, reconnectDelay, offlineSince, clock, log)
      invariant AllPublished(script) == arrivals + AllPublished(script[i..])
      invariant CountersOf(runtime, multiplex, throughput) == After(before, id, arrivals)
      invariant i > 0 ==> runtime.connectedSinceMs == 0 && runtime.state == StateAfter(script[i - 1], log)
    {
      var r := script[i];
      AtRound(first, script, i);
      PublishedAtRound(before, id, script, i, arrivals);
      if r.cancelledBefore {
        return true, log;
      }
      if r.disabled {
        runtime.SetDisabled();
        clock := clock + r.busy;
        continue;
      }
      Attend(id, runtime, multiplex, throughput, r.attempt);
      arrivals := arrivals + PublishedIn(r.attempt);
      if r.attempt.Interrupted? {
        return true, log;
      }
      clock := clock + r.busy;
      if r.attempt.Session? {
        reconnectDelay := r.attempt.policy.initialDelay;
        log := log + [Opened(reconnectDelay)];
        offlineSince := Some(clock);
      } else if offlineSince.None? {
        offlineSince := Some(clock);
      }
      if r.cancelledAfter {
        return true, log;
      }
      clock := clock + r.lag;
      var degraded := clock - offlineSince.value >= r.policy.offlineThreshold;
      runtime.SetState(if degraded then ReconnectWaitDegraded else ReconnectWait);
      var wait := if degraded then r.policy.offlineDelay else reconnectDelay;
      log := log + [Wait(reconnectDelay, wait, degraded, clock)];
      if r.cancelledAsleep {
        return true, log;
      }
      clock := clock + wait + r.oversleep;
      if wait == reconnectDelay {
        reconnectDelay := Min(reconnectDelay * 2, r.policyAfter.maxDelay);
      }
    }
    assert arrivals + [] == arrivals;
    return false, log;
  }
}
