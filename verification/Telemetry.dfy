/** The telemetry feed: one broadcaster that stores each snapshot as the latest one and then
    sends it, and clients that read the latest one first and subscribe after that. Snapshots are
    numbered in the order they are built. */
module Telemetry {
  import opened Wrappers
  import Relay

  const CHANNEL_CAPACITY: nat := 16

  datatype Broadcaster = Resting | Built(snapshot: nat) | Stored(snapshot: nat)

  datatype Phase = Connected | Greeting | Greeted | Subscribed | Gone

  /** `greeting` is the latest snapshot as the client found it, `start` the end of the channel when it
      subscribed, and `sent` all it was sent. */
  datatype Client = Client(phase: Phase, greeting: Option<nat>, start: nat, cursor: nat, sent: seq<nat>)

  datatype Feed = Feed(next: nat, broadcaster: Broadcaster, latest: Option<nat>, log: seq<nat>, clients: seq<Client>)

  datatype Action =
    | Build(serialized: bool) | Store | Send
    | Join | ReadLatest(c: nat) | Greet(c: nat, delivered: bool) | Subscribe(c: nat)
    | Receive(c: nat, delivered: bool) | Leave(c: nat)

  ghost predicate Init(f: Feed) {
    f == Feed(0, Resting, None, [], [])
  }

  predicate Enabled(f: Feed, a: Action) {
    match a
    case Build(_) => f.broadcaster.Resting?
    case Store => f.broadcaster.Built?
    case Send => f.broadcaster.Stored?
    case Join => true
    case ReadLatest(c) => c < |f.clients| && f.clients[c].phase.Connected?
    case Greet(c, _) => c < |f.clients| && f.clients[c].phase.Greeting?
    case Subscribe(c) => c < |f.clients| && f.clients[c].phase.Greeted?
    case Receive(c, _) =>
      c < |f.clients| && f.clients[c].phase.Subscribed? && f.clients[c].cursor < |f.log|
    case Leave(c) => c < |f.clients|
  }

  function NextClient(f: Feed, client: Client, a: Action): Client
    requires a.Receive? ==> client.cursor <= |f.log|
  {
    match a
    case ReadLatest(_) => client.(greeting := f.latest, phase := Greeting)
    case Greet(_, delivered) =>
      if client.greeting.None? then client.(phase := Greeted)
      else if delivered then client.(phase := Greeted, sent := client.sent + [client.greeting.value])
      else client.(phase := Gone)
    case Subscribe(_) => client.(phase := Subscribed, start := |f.log|, cursor := |f.log|)
    case Receive(_, delivered) =>
      (match Relay.Receive(f.log, CHANNEL_CAPACITY, client.cursor)
       case Got(snapshot) =>
         if delivered then client.(cursor := client.cursor + 1, sent := client.sent + [snapshot])
         else client.(phase := Gone)
       case Missed(count) => client.(cursor := client.cursor + count)
       case Empty => client)
    case Leave(_) => client.(phase := Gone)
    case _ => client
  }

  function Apply(f: Feed, a: Action): Feed
    requires Enabled(f, a)
  {
    match a
    case Build(serialized) => f.(next := f.next + 1, broadcaster := if serialized then Built(f.next) else Resting)
    case Store => f.(latest := Some(f.broadcaster.snapshot), broadcaster := Stored(f.broadcaster.snapshot))
    case Send => f.(log := f.log + [f.broadcaster.snapshot], broadcaster := Resting)
    case Join => f.(clients := f.clients + [Client(Connected, None, 0, 0, [])])
    case ReadLatest(c) => f.(clients := f.clients[c := NextClient(f, f.clients[c], a)])
    case Greet(c, _) => f.(clients := f.clients[c := NextClient(f, f.clients[c], a)])
    case Subscribe(c) => f.(clients := f.clients[c := NextClient(f, f.clients[c], a)])
    case Receive(c, _) => f.(clients := f.clients[c := NextClient(f, f.clients[c], a)])
    case Leave(c) => f.(clients := f.clients[c := NextClient(f, f.clients[c], a)])
  }

  ghost predicate FeedStep(f: Feed, a: Action, g: Feed) {
    Enabled(f, a) && g == Apply(f, a)
  }

  /** A run: each state follows from the one before by an enabled action. */
  ghost predicate IsRun(states: seq<Feed>, actions: seq<Action>) {
    && |states| == |actions| + 1 && Init(states[0])
    && forall k :: 0 <= k < |actions| ==> FeedStep(states[k], actions[k], states[k + 1])
  }

  // ----- What every step keeps -----

  /** No snapshot still to be sent is older than this. */
  function Upcoming(f: Feed): nat {
    if f.broadcaster.Resting? then f.next else f.broadcaster.snapshot
  }

  predicate Increasing(s: seq<nat>) {
    forall i, j :: 0 <= i < j < |s| ==> s[i] < s[j]
  }

  predicate ValidFeed(f: Feed) {
    && Increasing(f.log) && Upcoming(f) <= f.next
    && (!f.broadcaster.Resting? ==> f.broadcaster.snapshot < f.next)
    && (forall i :: 0 <= i < |f.log| ==> f.log[i] < Upcoming(f))
    && (f.broadcaster.Stored? ==> f.latest == Some(f.broadcaster.snapshot))
    && (!f.broadcaster.Stored? ==> f.latest == if f.log == [] then None else Some(f.log[|f.log| - 1]))
  }

  /** The snapshots sent to a client come in order. Only the greeting may come twice, and then as
      the first one received. */
  predicate InOrder(c: Client) {
    forall i, j :: 0 <= i < j < |c.sent| ==>
      c.sent[i] < c.sent[j] || (i == 0 && j == 1 && c.greeting.Some? && c.sent[0] == c.sent[1] == c.greeting.value)
  }

  /** Nothing older than this may be sent to the client any more. */
  function Floor(c: Client): nat {
    if c.sent == [] then (if c.greeting.Some? then c.greeting.value else 0)
    else if |c.sent| == 1 && c.greeting.Some? then c.sent[0]
    else c.sent[|c.sent| - 1] + 1
  }

  predicate ValidClient(f: Feed, c: Client) {
    && c.cursor <= |f.log|
    && InOrder(c)
    && (c.phase.Connected? ==> c.greeting.None?)
    && (c.phase.Connected? || c.phase.Greeting? ==> c.sent == [])
    && (c.greeting.Some? && c.sent != [] ==> c.sent[0] == c.greeting.value)
    && (c.phase.Greeted? || c.phase.Subscribed? ==> c.greeting.Some? ==> c.sent != [])
    && (c.phase.Greeted? && c.greeting.None? ==> c.sent == [])
    && (!c.phase.Gone? ==> Floor(c) <= Upcoming(f))
    && (c.phase.Subscribed? ==> forall k :: c.cursor <= k < |f.log| ==> Floor(c) <= f.log[k])
  }

  ghost predicate Valid(f: Feed) {
    ValidFeed(f) && forall i :: 0 <= i < |f.clients| ==> ValidClient(f, f.clients[i])
  }

  lemma BroadcasterKeepsValid(f: Feed, a: Action)
    requires Valid(f) && Enabled(f, a) && (a.Build? || a.Store? || a.Send?)
    ensures Valid(Apply(f, a))
  {
    var g := Apply(f, a);
    assert ValidFeed(g);
    forall i | 0 <= i < |g.clients|
      ensures ValidClient(g, g.clients[i])
    {
      assert ValidClient(f, f.clients[i]);
    }
  }

  lemma ReceiveKeepsValid(f: Feed, c: Client, a: Action)
    requires ValidFeed(f) && ValidClient(f, c) && a.Receive? && c.phase.Subscribed? && c.cursor < |f.log|
    ensures ValidClient(f, NextClient(f, c, a))
  {
    var d := NextClient(f, c, a);
    if d.sent != c.sent {
      var w := f.log[c.cursor];
      assert d.sent == c.sent + [w] && Floor(c) <= w;
    }
  }

  lemma ClientKeepsValid(f: Feed, c: Client, a: Action)
    requires ValidFeed(f) && ValidClient(f, c)
    requires match a
             case ReadLatest(_) => c.phase.Connected?
             case Greet(_, _) => c.phase.Greeting?
             case Subscribe(_) => c.phase.Greeted?
             case Receive(_, _) => c.phase.Subscribed? && c.cursor < |f.log|
             case _ => true
    ensures ValidClient(f, NextClient(f, c, a))
  {
    if a.Receive? {
      ReceiveKeepsValid(f, c, a);
    }
  }

  lemma StepKeepsValid(f: Feed, a: Action)
    requires Valid(f) && Enabled(f, a)
    ensures Valid(Apply(f, a))
  {
    if a.Build? || a.Store? || a.Send? {
      BroadcasterKeepsValid(f, a);
    } else {
      var g := Apply(f, a);
      forall i | 0 <= i < |g.clients|
        ensures ValidClient(g, g.clients[i])
      {
        if i < |f.clients| {
          ClientKeepsValid(f, f.clients[i], if g.clients[i] == f.clients[i] then Join else a);
        }
      }
    }
  }

  lemma {:induction false} RunIsValid(states: seq<Feed>, actions: seq<Action>, k: nat)
    requires IsRun(states, actions) && k < |states|
    ensures Valid(states[k])
  {
    if k > 0 {
      RunIsValid(states, actions, k - 1);
      assert FeedStep(states[k - 1], actions[k - 1], states[k]);
      StepKeepsValid(states[k - 1], actions[k - 1]);
    }
  }

  /** Whatever the interleaving of builds, stores, sends, reads, subscriptions and lags: the
      snapshots a client is sent never go back, and only its greeting can come twice. */
  lemma SnapshotsInOrder(states: seq<Feed>, actions: seq<Action>, k: nat, i: nat)
    requires IsRun(states, actions) && k < |states| && i < |states[k].clients|
    ensures InOrder(states[k].clients[i])
  {
    RunIsValid(states, actions, k);
  }

  // ----- Nothing that is still there is skipped -----

  /** Of what the client has read past, it was sent all that the channel still held then: the rest has
      long been dropped. */
  predicate SentAllRetained(f: Feed, c: Client) {
    && c.start <= c.cursor <= |f.log|
    && (forall p :: c.start <= p < c.cursor ==> f.log[p] in c.sent || p + CHANNEL_CAPACITY < |f.log|)
  }

  ghost predicate AllSentRetained(f: Feed) {
    forall i :: 0 <= i < |f.clients| ==> SentAllRetained(f, f.clients[i])
  }

  lemma NextSendsRetained(f: Feed, c: Client, a: Action)
    requires SentAllRetained(f, c) && (a.Receive? ==> c.cursor < |f.log|)
    ensures SentAllRetained(f, NextClient(f, c, a))
  {
    var d := NextClient(f, c, a);
    forall p | d.start <= p < d.cursor
      ensures f.log[p] in d.sent || p + CHANNEL_CAPACITY < |f.log|
    {
      if p < c.cursor && c.start <= p {
        assert f.log[p] in c.sent || p + CHANNEL_CAPACITY < |f.log|;
      }
    }
  }

  lemma StepSendsRetained(f: Feed, a: Action)
    requires AllSentRetained(f) && Enabled(f, a)
    ensures AllSentRetained(Apply(f, a))
  {
    hide NextClient;
    var g := Apply(f, a);
    forall i | 0 <= i < |g.clients|
      ensures SentAllRetained(g, g.clients[i])
    {
      if i < |f.clients| {
        assert SentAllRetained(f, f.clients[i]);
        if g.clients[i] != f.clients[i] {
          NextSendsRetained(f, f.clients[i], a);
        }
      }
    }
  }

  /** A client that is slow misses snapshots only if the channel has dropped them before it got to them:
      whatever it has read past and was not sent is more than the channel's capacity back. */
  lemma {:induction false} RetainedSnapshotsArrive(states: seq<Feed>, actions: seq<Action>, k: nat)
    requires IsRun(states, actions) && k < |states|
    ensures forall i :: 0 <= i < |states[k].clients| ==> SentAllRetained(states[k], states[k].clients[i])
  {
    hide SentAllRetained, Apply;
    if k > 0 {
      RetainedSnapshotsArrive(states, actions, k - 1);
      assert FeedStep(states[k - 1], actions[k - 1], states[k]);
      StepSendsRetained(states[k - 1], actions[k - 1]);
    }
  }

  /** A subscription starts at the end of the channel. Each receive then gets on: to the next snapshot if
      the channel still holds it, and otherwise to the oldest it holds; lag ends nothing. */
  lemma ReceivesGetOn(f: Feed, c: nat)
    requires c < |f.clients|
    ensures Enabled(f, Subscribe(c)) ==>
              var after := Apply(f, Subscribe(c)).clients[c];
              after.phase == Phase.Subscribed && after.start == after.cursor == |f.log|
    ensures Enabled(f, Receive(c, true)) ==>
              var before, after := f.clients[c], Apply(f, Receive(c, true)).clients[c];
              && after.phase == Phase.Subscribed && after.start == before.start
              && if before.cursor + 16 < |f.log| then after.cursor == |f.log| - 16 && after.sent == before.sent
                 else after.cursor == before.cursor + 1 && after.sent == before.sent + [f.log[before.cursor]]
  {
  }

  /** A client that finds a snapshot when it connects has been sent that one first, if anything, and is not
      subscribed before. */
  predicate GreetedWith(c: Client, latest: nat) {
    && c.greeting == Some(latest)
    && !c.phase.Connected?
    && (c.phase.Greeted? || c.phase.Subscribed? ==> c.sent != [])
    && (c.sent != [] ==> c.sent[0] == latest)
  }

  lemma StepKeepsGreeting(f: Feed, a: Action, i: nat, latest: nat)
    requires Enabled(f, a) && i < |f.clients| && GreetedWith(f.clients[i], latest)
    ensures i < |Apply(f, a).clients| && GreetedWith(Apply(f, a).clients[i], latest)
  {
  }

  /** Every snapshot stored by the time a client connects is known to it. */
  lemma {:induction false} GreetedWithTheLatest(states: seq<Feed>, actions: seq<Action>, n: nat, k: nat)
    requires IsRun(states, actions) && n < k < |states| && actions[n].ReadLatest? && states[n].latest.Some?
    ensures actions[n].c < |states[k].clients|
    ensures GreetedWith(states[k].clients[actions[n].c], states[n].latest.value)
  {
    RunIsValid(states, actions, n);
    assert FeedStep(states[k - 1], actions[k - 1], states[k]);
    if n < k - 1 {
      GreetedWithTheLatest(states, actions, n, k - 1);
      StepKeepsGreeting(states[k - 1], actions[k - 1], actions[n].c, states[n].latest.value);
    } else {
      assert ValidClient(states[n], states[n].clients[actions[n].c]);
    }
  }

  lemma OneMoreStep(states: seq<Feed>, actions: seq<Action>, a: Action) returns (longer: seq<Feed>)
    requires IsRun(states, actions) && Enabled(states[|actions|], a)
    ensures IsRun(longer, actions + [a]) && |longer| == |actions| + 2
    ensures longer[|actions| + 1] == Apply(states[|actions|], a)
  {
    longer := states + [Apply(states[|actions|], a)];
  }

  const NEWCOMER := Client(Connected, None, 0, 0, [])

  /** A client that has just subscribed and was greeted with a snapshot still to be sent. */
  const JUST_GREETED := Feed(1, Stored(0), Some(0), [], [Client(Phase.Subscribed, Some(0), 0, 0, [0])])

  lemma FirstSnapshotIsStored() returns (states: seq<Feed>, actions: seq<Action>)
    ensures IsRun(states, actions) && |states| == |actions| + 1
    ensures states[|actions|] == Feed(1, Stored(0), Some(0), [], [NEWCOMER])
  {
    var f := Feed(0, Resting, None, [], []);
    assert Apply(f, Join).clients == [NEWCOMER];
    states, actions := [f, Apply(f, Join)], [Join];
    hide IsRun, NextClient;
    states := OneMoreStep(states, actions, Build(true));
    states := OneMoreStep(states, actions + [Build(true)], Store);
    actions := actions + [Build(true)] + [Store];
  }

  lemma GreetingIsStored(f: Feed, c: Client)
    requires c == Client(Connected, None, 0, 0, []) && f == Feed(1, Stored(0), Some(0), [], [c])
    ensures Enabled(f, ReadLatest(0))
    ensures var g := Apply(f, ReadLatest(0));
            && Enabled(g, Greet(0, true))
            && var h := Apply(g, Greet(0, true));
               Enabled(h, Subscribe(0)) && Apply(h, Subscribe(0)) == JUST_GREETED
  {
    var g := Apply(f, ReadLatest(0));
    assert g.clients[0] == Client(Greeting, Some(0), 0, 0, []);
    var h := Apply(g, Greet(0, true));
    assert h.clients[0].sent == [0];
  }

  lemma GreetingArrives() returns (states: seq<Feed>, actions: seq<Action>)
    ensures IsRun(states, actions) && |states| == |actions| + 1 && states[|actions|] == JUST_GREETED
  {
    states, actions := FirstSnapshotIsStored();
    hide IsRun, NextClient;
    GreetingIsStored(states[|actions|], NEWCOMER);
    states := OneMoreStep(states, actions, ReadLatest(0));
    states := OneMoreStep(states, actions + [ReadLatest(0)], Greet(0, true));
    states := OneMoreStep(states, actions + [ReadLatest(0)] + [Greet(0, true)], Subscribe(0));
    actions := actions + [ReadLatest(0)] + [Greet(0, true)] + [Subscribe(0)];
  }

  lemma GreetingComesAgain(f: Feed)
    requires f == JUST_GREETED
    ensures var g := Apply(f, Send);
            && Enabled(g, Receive(0, true)) && |Apply(g, Receive(0, true)).clients| == 1
            && Apply(g, Receive(0, true)).clients[0].sent == [0, 0]
  {
    assert Apply(f, Send).log == [0];
  }

  /** The greeting can indeed come twice: it is stored before it is sent. */
  lemma GreetingCanRepeat() returns (states: seq<Feed>, actions: seq<Action>)
    ensures IsRun(states, actions)
    ensures |states| == |actions| + 1 && |states[|actions|].clients| == 1
    ensures states[|actions|].clients[0].sent == [0, 0]
  {
    states, actions := GreetingArrives();
    hide IsRun, NextClient;
    GreetingComesAgain(JUST_GREETED);
    states := OneMoreStep(states, actions, Send);
    states := OneMoreStep(states, actions + [Send], Receive(0, true));
    actions := actions + [Send] + [Receive(0, true)];
  }
}
