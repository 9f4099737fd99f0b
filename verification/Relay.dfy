/** The relay as one interleaved machine: upstream tasks inside `publish_frame`, the broadcast
    channels they feed, the clients that read those channels at their own pace, and the
    status logger. Every atomic store, channel send and channel receive is one action. */
module Relay {
  import opened Bytes
  import opened Wrappers
  import opened Utf8
  import C = Config
  import H = Handlers
  import M = Multiplex

  // ----- Broadcast channels -----

  datatype Receipt<T> = Got(value: T) | Missed(count: nat) | Empty

  /** The documented contract of a bounded broadcast channel: `log` is everything ever sent
      and only its last `capacity` values are retained. */
  function Receive<T>(log: seq<T>, capacity: nat, cursor: nat): Receipt<T>
  {
    if |log| - cursor > capacity then Missed(|log| - capacity - cursor)
    else if cursor < |log| then Got(log[cursor])
    else Empty
  }

  // ----- State -----

  /** One value of the multiplex channel. `ticket` counts the publishes of a runtime without
      wrapping around; the envelope carries it modulo 2^64. */
  datatype Entry = Entry(rt: nat, ticket: nat, id: Str, timestampMs: U64, frame: M.RawFrame)

  function Envelope(e: Entry): Data {
    M.EncodeFrame(M.PublishedFields(e.id, e.ticket % U64_SIZE, e.timestampMs, e.frame))
  }

  datatype Runtime = Runtime(
    id: Str,
    capacity: nat,          // of the source's own channel
    sequence: U64,          // the atomic counter
    issued: nat,            // how often it was incremented
    packets: nat,
    bytes: nat,
    raw: seq<M.RawFrame>)   // everything ever sent to the source's own channel

  /** Where a task stands inside `publish_frame`. `done` counts finished effects: global
      packets, global bytes, runtime packets, runtime bytes, sequence number, raw send. The
      multiplex send makes the task idle again. */
  datatype Publish = Idle | Publishing(frame: M.RawFrame, timestampMs: U64, done: nat, ticket: nat)

  const NUMBERED: nat := 5
  const RAW_SENT: nat := 6

  datatype Task = Task(rt: nat, publish: Publish)

  /** A `/ws` client: where it subscribed, what it has read up to, and its loop's wake-ups. */
  datatype Client = Client(cfg: H.ClientConfig, start: nat, cursor: nat, events: seq<H.Event<Data>>)

  datatype RawClient = RawClient(rt: nat, start: nat, cursor: nat, events: seq<H.Event<M.RawFrame>>)

  /** The status logger between and inside calls of `interval_delta`. */
  datatype Logger = Logger(
    lastPackets: int,
    lastBytes: int,
    loaded: Option<int>,
    packetsReported: int,
    bytesReported: int)

  datatype State = State(
    lib: M.Library,
    capacity: nat,
    runtimes: seq<Runtime>,  // every runtime ever created, including removed ones
    tasks: seq<Task>,        // every task ever spawned, including aborted ones
    totalPackets: nat,
    totalBytes: nat,
    log: seq<Entry>,
    clients: seq<Client>,
    rawClients: seq<RawClient>,
    logger: Logger)

  ghost predicate Init(s: State) {
    && s.capacity > 0
    && s.runtimes == [] && s.tasks == [] && s.totalPackets == 0 && s.totalBytes == 0
    && s.log == [] && s.clients == [] && s.rawClients == []
    && s.logger == Logger(0, 0, None, 0, 0)
  }

  function SessionOf(s: State, c: Client): H.Session {
    H.Replay(s.lib, c.cfg, H.Opened(c.cfg), c.events)
  }

  // ----- Actions -----

  datatype Action =
    | AddSource(id: Str, capacity: nat)
    | Spawn(rt: nat)
    | Arrive(task: nat, frame: M.RawFrame, timestampMs: U64)
    | Proceed(task: nat)
    | Subscribe(cfg: H.ClientConfig)
    | Wake(client: nat, now: nat, accepted: nat)
    | Disturb(client: nat, event: H.Event<Data>)
    | SubscribeRaw(rt: nat)
    | WakeRaw(client: nat, accepted: nat)
    | DisturbRaw(client: nat, rawEvent: H.Event<M.RawFrame>)
    | LoadPackets
    | LoadBytes

  predicate Live(s: State, c: nat)
    requires c < |s.clients|
  {
    SessionOf(s, s.clients[c]).status == H.Live
  }

  predicate RawLive(s: State, c: nat)
    requires c < |s.rawClients|
  {
    H.RawReplay(s.rawClients[c].events).status == H.Live
  }

  ghost predicate Enabled(s: State, a: Action) {
    match a
    case AddSource(id, capacity) => C.CanPublish(id, capacity)
    case Spawn(rt) => rt < |s.runtimes|
    case Arrive(t, frame, _) => t < |s.tasks| && s.tasks[t].publish.Idle? && |frame.Payload()| < U32_SIZE
    case Proceed(t) => t < |s.tasks| && s.tasks[t].publish.Publishing? && s.tasks[t].rt < |s.runtimes|
    case Subscribe(_) => true
    case Wake(c, _, _) =>
      c < |s.clients| && Live(s, c) && Receive(s.log, s.capacity, s.clients[c].cursor) != Empty
    case Disturb(c, e) => c < |s.clients| && Live(s, c) && (e.PingIn? || e.PeerGone? || e.OtherIn?)
    case SubscribeRaw(rt) => rt < |s.runtimes|
    case WakeRaw(c, _) =>
      c < |s.rawClients| && RawLive(s, c) && s.rawClients[c].rt < |s.runtimes|
      && var rt := s.runtimes[s.rawClients[c].rt];
         Receive(rt.raw, rt.capacity, s.rawClients[c].cursor) != Empty
    case DisturbRaw(c, e) => c < |s.rawClients| && RawLive(s, c) && !e.Received? && !e.Lagged?
    case LoadPackets => s.logger.loaded.None?
    case LoadBytes => s.logger.loaded.Some?
  }

  function NextRuntime(rt: Runtime, p: Publish): Runtime
    requires p.Publishing?
  {
    if p.done == 2 then rt.(packets := rt.packets + 1)
    else if p.done == 3 then rt.(bytes := rt.bytes + |p.frame.Payload()|)
    else if p.done == 4 then rt.(sequence := (rt.sequence + 1) % U64_SIZE, issued := rt.issued + 1)
    else if p.done == 5 then rt.(raw := rt.raw + [p.frame])
    else rt
  }

  function NextPublish(rt: Runtime, p: Publish): Publish
    requires p.Publishing?
  {
    if p.done == RAW_SENT then Idle
    else if p.done == 4 then p.(done := NUMBERED, ticket := rt.issued)
    else p.(done := p.done + 1)
  }

  /** The next effect of `publish_frame` in task `t`. */
  function Effect(s: State, t: nat): State
    requires t < |s.tasks| && s.tasks[t].publish.Publishing? && s.tasks[t].rt < |s.runtimes|
  {
    var Task(r, p) := s.tasks[t];
    var rt := s.runtimes[r];
    s.(totalPackets := s.totalPackets + (if p.done == 0 then 1 else 0),
       totalBytes := s.totalBytes + (if p.done == 1 then |p.frame.Payload()| else 0),
       runtimes := s.runtimes[r := NextRuntime(rt, p)],
       log := if p.done == RAW_SENT then s.log + [Entry(r, p.ticket, rt.id, p.timestampMs, p.frame)] else s.log,
       tasks := s.tasks[t := Task(r, NextPublish(rt, p))])
  }

  /** A receive by client `c`, and what its loop does with the result. */
  function Receival(s: State, c: nat, now: nat, accepted: nat): State
    requires Enabled(s, Wake(c, now, accepted))
  {
    var client := s.clients[c];
    match Receive(s.log, s.capacity, client.cursor)
    case Got(entry) =>
      s.(clients := s.clients[c := client.(cursor := client.cursor + 1,
                                           events := client.events + [H.Received(Envelope(entry), now, accepted)])])
    case Missed(count) =>
      s.(clients := s.clients[c := client.(events := client.events + [H.Lagged(count, accepted > 0)])])
  }

  function RawReceival(s: State, c: nat, accepted: nat): State
    requires Enabled(s, WakeRaw(c, accepted))
  {
    var client := s.rawClients[c];
    match Receive(s.runtimes[client.rt].raw, s.runtimes[client.rt].capacity, client.cursor)
    case Got(frame) =>
      s.(rawClients := s.rawClients[c := client.(cursor := client.cursor + 1,
                                                 events := client.events + [H.Received(frame, 0, accepted)])])
    case Missed(count) =>
      s.(rawClients := s.rawClients[c := client.(events := client.events + [H.Lagged(count, accepted > 0)])])
  }

  function Apply(s: State, a: Action): State
    requires Enabled(s, a)
  {
    match a
    case AddSource(id, capacity) => s.(runtimes := s.runtimes + [Runtime(id, capacity, 0, 0, 0, 0, [])])
    case Spawn(rt) => s.(tasks := s.tasks + [Task(rt, Idle)])
    case Arrive(t, frame, timestampMs) =>
      s.(tasks := s.tasks[t := s.tasks[t].(publish := Publishing(frame, timestampMs, 0, 0))])
    case Proceed(t) => Effect(s, t)
    case Subscribe(cfg) => s.(clients := s.clients + [Client(cfg, |s.log|, |s.log|, [])])
    case Wake(c, now, accepted) => Receival(s, c, now, accepted)
    case Disturb(c, e) => s.(clients := s.clients[c := s.clients[c].(events := s.clients[c].events + [e])])
    case SubscribeRaw(rt) =>
      var tail := |s.runtimes[rt].raw|;
      s.(rawClients := s.rawClients + [RawClient(rt, tail, tail, [])])
    case WakeRaw(c, accepted) => RawReceival(s, c, accepted)
    case DisturbRaw(c, e) =>
      s.(rawClients := s.rawClients[c := s.rawClients[c].(events := s.rawClients[c].events + [e])])
    case LoadPackets => s.(logger := s.logger.(loaded := Some(s.totalPackets)))
    case LoadBytes =>
      var l, packets := s.logger, s.logger.loaded.value;
      s.(logger := Logger(packets, s.totalBytes, None, l.packetsReported + (packets - l.lastPackets),
                          l.bytesReported + (s.totalBytes - l.lastBytes)))
  }

  // ----- Runs -----

  ghost predicate IsRun(s: State, acts: seq<Action>)
    decreases |acts|, 0
  {
    acts == []
    || (IsRun(s, acts[..|acts| - 1]) && Enabled(Exec(s, acts[..|acts| - 1]), acts[|acts| - 1]))
  }

  ghost function Exec(s: State, acts: seq<Action>): State
    requires IsRun(s, acts)
    decreases |acts|, 1
  {
    if acts == [] then s else Apply(Exec(s, acts[..|acts| - 1]), acts[|acts| - 1])
  }

  // ----- Shape -----

  predicate GoodRuntime(rt: Runtime) {
    C.ValidId(rt.id) && rt.capacity > 0 && rt.sequence == rt.issued % U64_SIZE
  }

  predicate GoodTask(t: Task, runtimes: nat) {
    t.rt < runtimes
    && (t.publish.Publishing? ==> t.publish.done <= RAW_SENT && |t.publish.frame.Payload()| < U32_SIZE)
  }

  predicate GoodEntry(e: Entry, runtimes: seq<Runtime>) {
    e.rt < |runtimes| && e.id == runtimes[e.rt].id && |e.frame.Payload()| < U32_SIZE
  }

  ghost predicate Shape(s: State) {
    && s.capacity > 0
    && (forall r :: 0 <= r < |s.runtimes| ==> GoodRuntime(s.runtimes[r]))
    && (forall t :: 0 <= t < |s.tasks| ==> GoodTask(s.tasks[t], |s.runtimes|))
    && (forall i :: 0 <= i < |s.log| ==> GoodEntry(s.log[i], s.runtimes))
  }

  lemma SequenceWraps(n: nat)
    ensures (n % U64_SIZE + 1) % U64_SIZE == (n + 1) % U64_SIZE
  {
  }

  lemma NextRuntimeIsGood(rt: Runtime, p: Publish)
    requires GoodRuntime(rt) && p.Publishing?
    ensures GoodRuntime(NextRuntime(rt, p)) && NextRuntime(rt, p).id == rt.id
  {
    hide C.ValidId;
    SequenceWraps(rt.issued);
  }

  lemma ShapeEffect(s: State, t: nat)
    requires Shape(s) && Enabled(s, Proceed(t))
    ensures Shape(Effect(s, t))
  {
    var Task(r, p) := s.tasks[t];
    var s' := Effect(s, t);
    assert GoodTask(s'.tasks[t], |s.runtimes|) && (p.done == RAW_SENT ==> GoodEntry(s'.log[|s.log|], s.runtimes));
    NextRuntimeIsGood(s.runtimes[r], p);
    hide NextRuntime, NextPublish, GoodRuntime;
    forall i | 0 <= i < |s'.log|
      ensures GoodEntry(s'.log[i], s'.runtimes)
    {
      assert GoodEntry(s'.log[i], s.runtimes);
    }
  }

  lemma ShapeStep(s: State, a: Action)
    requires Shape(s) && Enabled(s, a)
    ensures Shape(Apply(s, a))
  {
    hide H.Replay, H.RawReplay, Effect, C.ValidId;
    if a.Proceed? {
      ShapeEffect(s, a.task);
    }
  }

  lemma {:induction false} AlwaysShape(s: State, acts: seq<Action>)
    requires Init(s) && IsRun(s, acts)
    ensures Shape(Exec(s, acts))
  {
    if acts != [] {
      AlwaysShape(s, acts[..|acts| - 1]);
      ShapeStep(Exec(s, acts[..|acts| - 1]), acts[|acts| - 1]);
    }
  }

  ghost predicate Quiescent(s: State) {
    forall t :: 0 <= t < |s.tasks| ==> s.tasks[t].publish.Idle?
  }
}
