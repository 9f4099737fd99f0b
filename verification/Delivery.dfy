/** What clients of the running relay are sent: over every interleaving, a contiguous block of
    the channel they subscribed to, put through their own pipeline, and nothing after a lag. */
module Delivery {
  import opened Bytes
  import opened Relay
  import opened Wrappers
  import Dedup
  import H = Handlers
  import M = Multiplex

  function TakenBy(s: State, c: Client): seq<H.Timed> {
    H.Taken(s.lib, c.cfg, c.events)
  }

  /** A client has taken exactly the envelopes from `start` up to its cursor, and was
      disconnected for lagging only if the channel no longer held its next one. */
  ghost predicate ReadsBlock(s: State, c: Client) {
    var taken := TakenBy(s, c);
    && c.start <= c.cursor <= |s.log|
    && |taken| == c.cursor - c.start
    && (forall i :: 0 <= i < |taken| ==> taken[i].frame == Envelope(s.log[c.start + i]))
    && (SessionOf(s, c).status == H.Overrun ==> |s.log| - c.cursor > s.capacity)
  }

  ghost predicate RawReadsBlock(s: State, c: RawClient) {
    && c.rt < |s.runtimes|
    && c.start <= c.cursor <= |s.runtimes[c.rt].raw|
    && H.RawTaken(c.events) == s.runtimes[c.rt].raw[c.start..c.cursor]
    && (H.RawReplay(c.events).status == H.Overrun ==>
          |s.runtimes[c.rt].raw| - c.cursor > s.runtimes[c.rt].capacity)
  }

  ghost predicate AllRead(s: State) {
    && (forall c :: 0 <= c < |s.clients| ==> ReadsBlock(s, s.clients[c]))
    && (forall c :: 0 <= c < |s.rawClients| ==> RawReadsBlock(s, s.rawClients[c]))
  }

  /** What every action does to the channels: they keep their identity and only grow. */
  ghost predicate ChannelsGrow(s: State, s': State) {
    && s'.lib == s.lib && s'.capacity == s.capacity
    && s.log <= s'.log
    && |s.runtimes| <= |s'.runtimes|
    && (forall r :: 0 <= r < |s.runtimes| ==>
          s'.runtimes[r].capacity == s.runtimes[r].capacity && s.runtimes[r].raw <= s'.runtimes[r].raw)
  }

  lemma ChannelsGrowStep(s: State, a: Action)
    requires Enabled(s, a)
    ensures ChannelsGrow(s, Apply(s, a))
  {
    hide H.Replay, H.RawReplay;
  }

  lemma BlockSurvives(s: State, s': State, c: Client)
    requires ChannelsGrow(s, s') && ReadsBlock(s, c)
    ensures ReadsBlock(s', c)
  {
    hide Envelope, H.Taken, H.Replay;
  }

  lemma RawBlockSurvives(s: State, s': State, c: RawClient)
    requires ChannelsGrow(s, s') && RawReadsBlock(s, c)
    ensures RawReadsBlock(s', c)
  {
    var raw, raw' := s.runtimes[c.rt].raw, s'.runtimes[c.rt].raw;
    assert raw'[c.start..c.cursor] == raw[c.start..c.cursor];
  }

  lemma EventSnoc(s: State, c: Client, e: H.Event<Data>)
    ensures var c' := c.(events := c.events + [e]);
            && TakenBy(s, c') == TakenBy(s, c) +
               (if SessionOf(s, c).status == H.Live && e.Received? then [H.Timed(e.frame, e.now)] else [])
            && SessionOf(s, c') == H.Act(s.lib, c.cfg, SessionOf(s, c), e)
  {
    H.DropLast(c.events, e);
  }

  lemma RawEventSnoc(es: seq<H.Event<M.RawFrame>>, e: H.Event<M.RawFrame>)
    ensures H.RawTaken(es + [e]) ==
            H.RawTaken(es) + if H.RawReplay(es).status == H.Live && e.Received? then [e.frame] else []
    ensures H.RawReplay(es + [e]) == H.RawAct(H.RawReplay(es), e)
  {
    H.DropLast(es, e);
  }

  /** Only a lag ends a session as overrun. */
  lemma OnlyLagOverruns(lib: M.Library, cfg: H.ClientConfig, s: H.Session, e: H.Event<Data>)
    requires s.status == H.Live
    ensures H.Act(lib, cfg, s, e).status == H.Overrun <==> e.Lagged?
  {
    hide M.MetaOf, H.PassesSource, H.PassesType, H.Outputs, Dedup.Admits, Dedup.AdmitStep;
  }

  /** A client whose loop has just handled `e`, with the cursor to match. */
  lemma ReadsOneMore(s: State, c: Client, e: H.Event<Data>)
    requires ReadsBlock(s, c) && SessionOf(s, c).status == H.Live
    requires e.Received? ==> c.cursor < |s.log| && e.frame == Envelope(s.log[c.cursor])
    requires e.Lagged? ==> |s.log| - c.cursor > s.capacity
    ensures ReadsBlock(s, c.(cursor := c.cursor + (if e.Received? then 1 else 0), events := c.events + [e]))
  {
    hide Envelope, H.Taken, H.Replay, H.Act;
    EventSnoc(s, c, e);
    OnlyLagOverruns(s.lib, c.cfg, SessionOf(s, c), e);
  }

  lemma WakeReads(s: State, a: Action)
    requires Enabled(s, a) && a.Wake? && ReadsBlock(s, s.clients[a.client])
    ensures ReadsBlock(Apply(s, a), Apply(s, a).clients[a.client])
  {
    hide Envelope, ReadsBlock, SessionOf, H.Replay, ChannelsGrow;
    var c := s.clients[a.client];
    match Receive(s.log, s.capacity, c.cursor) {
      case Got(entry) => ReadsOneMore(s, c, H.Received(Envelope(entry), a.now, a.accepted));
      case Missed(count) => ReadsOneMore(s, c, H.Lagged(count, a.accepted > 0));
    }
    ChannelsGrowStep(s, a);
    BlockSurvives(s, Apply(s, a), Apply(s, a).clients[a.client]);
  }

  lemma DisturbReads(s: State, a: Action)
    requires Enabled(s, a) && a.Disturb? && ReadsBlock(s, s.clients[a.client])
    ensures ReadsBlock(Apply(s, a), Apply(s, a).clients[a.client])
  {
    hide Envelope, ReadsBlock, SessionOf, H.Replay, ChannelsGrow;
    ReadsOneMore(s, s.clients[a.client], a.event);
    ChannelsGrowStep(s, a);
    BlockSurvives(s, Apply(s, a), Apply(s, a).clients[a.client]);
  }

  lemma RawReadsOneMore(s: State, c: RawClient, e: H.Event<M.RawFrame>)
    requires RawReadsBlock(s, c) && H.RawReplay(c.events).status == H.Live
    requires var raw := s.runtimes[c.rt].raw;
             && (e.Received? ==> c.cursor < |raw| && e.frame == raw[c.cursor])
             && (e.Lagged? ==> |raw| - c.cursor > s.runtimes[c.rt].capacity)
    ensures RawReadsBlock(s, c.(cursor := c.cursor + (if e.Received? then 1 else 0), events := c.events + [e]))
  {
    hide H.RawTaken, H.RawReplay;
    RawEventSnoc(c.events, e);
    var raw := s.runtimes[c.rt].raw;
    if e.Received? {
      assert raw[c.start..c.cursor + 1] == raw[c.start..c.cursor] + [raw[c.cursor]];
    }
  }

  lemma RawWakeReads(s: State, a: Action)
    requires Enabled(s, a) && (a.WakeRaw? || a.DisturbRaw?) && RawReadsBlock(s, s.rawClients[a.client])
    ensures RawReadsBlock(Apply(s, a), Apply(s, a).rawClients[a.client])
  {
    hide H.RawTaken, H.RawReplay;
    var c := s.rawClients[a.client];
    if a.DisturbRaw? {
      RawReadsOneMore(s, c, a.rawEvent);
    } else {
      match Receive(s.runtimes[c.rt].raw, s.runtimes[c.rt].capacity, c.cursor) {
        case Got(frame) => RawReadsOneMore(s, c, H.Received(frame, 0, a.accepted));
        case Missed(count) => RawReadsOneMore(s, c, H.Lagged(count, a.accepted > 0));
      }
    }
    hide RawReadsBlock, ChannelsGrow;
    ChannelsGrowStep(s, a);
    RawBlockSurvives(s, Apply(s, a), Apply(s, a).rawClients[a.client]);
  }

  lemma FreshClientReads(s: State, cfg: H.ClientConfig)
    ensures ReadsBlock(s, Client(cfg, |s.log|, |s.log|, []))
  {
  }

  lemma FreshRawClientReads(s: State, r: nat)
    requires r < |s.runtimes|
    ensures RawReadsBlock(s, RawClient(r, |s.runtimes[r].raw|, |s.runtimes[r].raw|, []))
  {
  }

  lemma AllReadStep(s: State, a: Action)
    requires Enabled(s, a) && AllRead(s) && Shape(s)
    ensures AllRead(Apply(s, a))
  {
    hide ReadsBlock, RawReadsBlock, ChannelsGrow;
    ChannelsGrowStep(s, a);
    var s' := Apply(s, a);
    forall c | 0 <= c < |s'.clients|
      ensures ReadsBlock(s', s'.clients[c])
    {
      if a.Wake? && c == a.client {
        WakeReads(s, a);
      } else if a.Disturb? && c == a.client {
        DisturbReads(s, a);
      } else if c < |s.clients| {
        BlockSurvives(s, s', s.clients[c]);
      } else {
        FreshClientReads(s', a.cfg);
      }
    }
    forall c | 0 <= c < |s'.rawClients|
      ensures RawReadsBlock(s', s'.rawClients[c])
    {
      if (a.WakeRaw? || a.DisturbRaw?) && c == a.client {
        RawWakeReads(s, a);
      } else if c < |s.rawClients| {
        RawBlockSurvives(s, s', s.rawClients[c]);
      } else {
        FreshRawClientReads(s', a.rt);
      }
    }
  }

  lemma {:induction false} AlwaysRead(s: State, acts: seq<Action>)
    requires Init(s) && IsRun(s, acts)
    ensures AllRead(Exec(s, acts))
  {
    if acts != [] {
      var past := acts[..|acts| - 1];
      AlwaysRead(s, past);
      AlwaysShape(s, past);
      hide AllRead, Shape;
      AllReadStep(Exec(s, past), acts[|acts| - 1]);
    }
  }

  // ----- Main results -----

  /** In every interleaving of publishers, subscriptions, receives and ring overwrites, the
      frame messages a `/ws` client has been sent are its filters, dedup and projection
      applied, stage by stage, to the block of the multiplex log from its subscription to
      its cursor (cut short only by a failed send). Close 1013 is sent last if at all, to
      clients that really had fallen off the ring. */
  lemma ClientsSeeABlock(s: State, acts: seq<Action>, c: nat)
    requires Init(s) && IsRun(s, acts) && c < |Exec(s, acts).clients|
    ensures var s' := Exec(s, acts);
            var client := s'.clients[c];
            var session, taken := SessionOf(s', client), TakenBy(s', client);
            && ReadsBlock(s', client)
            && H.Faithful(s'.lib, client.cfg, session, taken)
  {
    AlwaysRead(s, acts);
    var client := Exec(s, acts).clients[c];
    H.ReplayIsPipeline(s.lib, client.cfg, client.events);
    H.ReplayIsPipeline(Exec(s, acts).lib, client.cfg, client.events);
  }

  /** A source client has been sent the block of its source's messages unchanged. */
  lemma RawClientsSeeABlock(s: State, acts: seq<Action>, c: nat)
    requires Init(s) && IsRun(s, acts) && c < |Exec(s, acts).rawClients|
    ensures var s' := Exec(s, acts);
            var client := s'.rawClients[c];
            && RawReadsBlock(s', client)
            && H.RawFaithful(H.RawReplay(client.events), s'.runtimes[client.rt].raw[client.start..client.cursor])
  {
    AlwaysRead(s, acts);
    H.RawReplayIsIdentity(Exec(s, acts).rawClients[c].events);
  }

  ghost predicate ContinuesClient(s: State, x: Client, y: Client) {
    && y.cfg == x.cfg && y.start == x.start && x.cursor <= y.cursor && x.events <= y.events
    && (SessionOf(s, x).status != H.Live ==> y == x)
  }

  ghost predicate ContinuesRawClient(x: RawClient, y: RawClient) {
    && y.rt == x.rt && y.start == x.start && x.cursor <= y.cursor && x.events <= y.events
    && (H.RawReplay(x.events).status != H.Live ==> y == x)
  }

  /** The log is extended and never rewritten; sessions are continued, stopped ones not at all. */
  ghost predicate Continues(s: State, s': State) {
    && s'.lib == s.lib && s.log <= s'.log && |s.clients| <= |s'.clients|
    && (forall c :: 0 <= c < |s.clients| ==> ContinuesClient(s, s.clients[c], s'.clients[c]))
    && |s.rawClients| <= |s'.rawClients|
    && (forall c :: 0 <= c < |s.rawClients| ==> ContinuesRawClient(s.rawClients[c], s'.rawClients[c]))
  }

  lemma ContinuesStep(s: State, a: Action)
    requires Enabled(s, a)
    ensures Continues(s, Apply(s, a))
  {
    hide H.Replay, H.RawReplay;
  }

  lemma ContinuesTransitive(s: State, t: State, u: State)
    requires Continues(s, t) && Continues(t, u)
    ensures Continues(s, u)
  {
    forall c | 0 <= c < |s.clients|
      ensures ContinuesClient(s, s.clients[c], u.clients[c])
    {
      assert ContinuesClient(s, s.clients[c], t.clients[c]) && ContinuesClient(t, t.clients[c], u.clients[c]);
    }
    forall c | 0 <= c < |s.rawClients|
      ensures ContinuesRawClient(s.rawClients[c], u.rawClients[c])
    {
      assert ContinuesRawClient(s.rawClients[c], t.rawClients[c]);
      assert ContinuesRawClient(t.rawClients[c], u.rawClients[c]);
    }
  }

  lemma ContinuesRefl(s: State)
    ensures Continues(s, s)
  {
  }

  /** A client's block starts at the end of the log at the moment it subscribed, and nothing
      that happens later rewrites what it has been sent or adds to it once it has stopped. */
  lemma {:induction false} BlocksAreStable(s: State, acts: seq<Action>, n: nat)
    requires IsRun(s, acts) && n <= |acts|
    ensures IsRun(s, acts[..n]) && Continues(Exec(s, acts[..n]), Exec(s, acts))
  {
    hide H.Replay, H.RawReplay, Continues, Apply, Enabled;
    if n == |acts| {
      assert acts[..n] == acts;
      ContinuesRefl(Exec(s, acts));
    } else {
      var past := acts[..|acts| - 1];
      assert past[..n] == acts[..n];
      BlocksAreStable(s, past, n);
      ContinuesStep(Exec(s, past), acts[|acts| - 1]);
      ContinuesTransitive(Exec(s, acts[..n]), Exec(s, past), Exec(s, acts));
    }
  }

  lemma SubscriptionPoint(s: State, acts: seq<Action>, n: nat)
    requires IsRun(s, acts) && n < |acts| && acts[n].Subscribe?
    ensures IsRun(s, acts[..n])
    ensures var c := |Exec(s, acts[..n]).clients|;
            && c < |Exec(s, acts).clients|
            && Exec(s, acts).clients[c].start == |Exec(s, acts[..n]).log|
            && Exec(s, acts).clients[c].cfg == acts[n].cfg
  {
    BlocksAreStable(s, acts, n);
    BlocksAreStable(s, acts, n + 1);
    assert acts[..n + 1][..n] == acts[..n];
    var c := |Exec(s, acts[..n]).clients|;
    var tail := |Exec(s, acts[..n]).log|;
    assert Exec(s, acts[..n + 1]).clients[c] == Client(acts[n].cfg, tail, tail, []);
    assert ContinuesClient(Exec(s, acts[..n + 1]), Exec(s, acts[..n + 1]).clients[c], Exec(s, acts).clients[c]);
  }

  lemma StoppedStaysTheSame(s: State, acts: seq<Action>, n: nat, c: nat)
    requires IsRun(s, acts) && n <= |acts| && IsRun(s, acts[..n]) && c < |Exec(s, acts[..n]).clients|
    requires SessionOf(Exec(s, acts[..n]), Exec(s, acts[..n]).clients[c]).status != H.Live
    ensures c < |Exec(s, acts).clients| && Exec(s, acts).clients[c] == Exec(s, acts[..n]).clients[c]
    ensures Exec(s, acts).lib == Exec(s, acts[..n]).lib
  {
    hide H.Replay;
    BlocksAreStable(s, acts, n);
    assert ContinuesClient(Exec(s, acts[..n]), Exec(s, acts[..n]).clients[c], Exec(s, acts).clients[c]);
  }

  /** A receive whose frame the ring still holds hands the client that frame. */
  lemma WakeTakesNext(t: State, c: nat, now: nat, accepted: nat)
    requires Enabled(t, Wake(c, now, accepted)) && |t.log| - t.clients[c].cursor <= t.capacity
    ensures t.clients[c].cursor < |t.log|
    ensures var u, x := Apply(t, Wake(c, now, accepted)), t.clients[c];
            && u.clients[c].cursor == x.cursor + 1 && u.clients[c].cfg == x.cfg
            && TakenBy(u, u.clients[c]) == TakenBy(t, x) + [H.Timed(Envelope(t.log[x.cursor]), now)]
  {
    hide H.Replay, Envelope;
    var x := t.clients[c];
    var es, e := x.events, H.Received(Envelope(t.log[x.cursor]), now, accepted);
    assert Apply(t, Wake(c, now, accepted)).clients[c].events == es + [e];
    assert (es + [e])[..|es|] == es;
  }

  /** The same for the clients of one source. */
  lemma RawWakeTakesNext(t: State, c: nat, accepted: nat)
    requires Enabled(t, WakeRaw(c, accepted))
    requires var rt := t.runtimes[t.rawClients[c].rt]; |rt.raw| - t.rawClients[c].cursor <= rt.capacity
    ensures t.rawClients[c].cursor < |t.runtimes[t.rawClients[c].rt].raw|
    ensures var y, x := Apply(t, WakeRaw(c, accepted)).rawClients[c], t.rawClients[c];
            && y.cursor == x.cursor + 1 && y.rt == x.rt
            && H.RawTaken(y.events) == H.RawTaken(x.events) + [t.runtimes[x.rt].raw[x.cursor]]
  {
    hide H.RawReplay;
    var x := t.rawClients[c];
    var es, e := x.events, H.Received(t.runtimes[x.rt].raw[x.cursor], 0, accepted);
    assert Apply(t, WakeRaw(c, accepted)).rawClients[c].events == es + [e];
    H.RawTakenSnoc(es, e);
  }

  /** A client whose next frame the ring has dropped is disconnected at its next receive, whatever happens
      then or later: it has been sent Close 1013 with the number of frames it missed, if the
      socket took that, and nothing else. */
  lemma DroppedFrameEndsSession(s: State, acts: seq<Action>, n: nat)
    requires IsRun(s, acts) && n < |acts| && IsRun(s, acts[..n]) && acts[n].Wake?
    requires var t := Exec(s, acts[..n]);
             acts[n].client < |t.clients| && |t.log| - t.clients[acts[n].client].cursor > t.capacity
    ensures acts[n].client < |Exec(s, acts).clients|
    ensures var t, c := Exec(s, acts[..n]), acts[n].client;
            var missed := |t.log| - t.capacity - t.clients[c].cursor;
            var before, after := SessionOf(t, t.clients[c]), SessionOf(Exec(s, acts), Exec(s, acts).clients[c]);
            && after.status == H.Overrun
            && after.sent == before.sent + (if acts[n].accepted > 0 then [H.Close(1013, missed)] else [])
            && TakenBy(Exec(s, acts), Exec(s, acts).clients[c]) == TakenBy(t, t.clients[c])
  {
    hide H.Replay, H.Taken, Continues, ContinuesClient;
    BlocksAreStable(s, acts, n);
    BlocksAreStable(s, acts, n + 1);
    assert acts[..n + 1][..n] == acts[..n];
    var t, u, c := Exec(s, acts[..n]), Exec(s, acts[..n + 1]), acts[n].client;
    var es, e := t.clients[c].events, H.Lagged(|t.log| - t.capacity - t.clients[c].cursor, acts[n].accepted > 0);
    assert Receive(t.log, t.capacity, t.clients[c].cursor) == Missed(e.skipped);
    assert u.clients[c].events == es + [e] && u.clients[c].cfg == t.clients[c].cfg && u.lib == t.lib;
    assert (es + [e])[..|es|] == es;
    H.LagCutsOff(t.lib, t.clients[c].cfg, es + [e], |es|);
    StoppedStaysTheSame(s, acts, n + 1, c);
  }

  lemma RawStoppedStaysTheSame(s: State, acts: seq<Action>, n: nat, c: nat)
    requires IsRun(s, acts) && n <= |acts| && IsRun(s, acts[..n]) && c < |Exec(s, acts[..n]).rawClients|
    requires H.RawReplay(Exec(s, acts[..n]).rawClients[c].events).status != H.Live
    ensures c < |Exec(s, acts).rawClients| && Exec(s, acts).rawClients[c] == Exec(s, acts[..n]).rawClients[c]
  {
    hide H.RawReplay;
    BlocksAreStable(s, acts, n);
    assert ContinuesRawClient(Exec(s, acts[..n]).rawClients[c], Exec(s, acts).rawClients[c]);
  }

  lemma RawReceivalOfDropped(t: State, c: nat, accepted: nat)
    requires Enabled(t, WakeRaw(c, accepted))
    requires var rt := t.runtimes[t.rawClients[c].rt]; |rt.raw| - t.rawClients[c].cursor > rt.capacity
    ensures var client := t.rawClients[c];
            var missed := |t.runtimes[client.rt].raw| - t.runtimes[client.rt].capacity - client.cursor;
            RawReceival(t, c, accepted).rawClients ==
            t.rawClients[c := client.(events := client.events + [H.Lagged(missed, accepted > 0)])]
  {
    hide H.RawReplay;
  }

  /** The same for the clients of one source. */
  lemma DroppedFrameEndsRawSession(s: State, acts: seq<Action>, n: nat)
    requires IsRun(s, acts) && n < |acts| && IsRun(s, acts[..n]) && acts[n].WakeRaw?
    requires var t := Exec(s, acts[..n]);
             && acts[n].client < |t.rawClients| && t.rawClients[acts[n].client].rt < |t.runtimes|
             && var rt := t.runtimes[t.rawClients[acts[n].client].rt];
                |rt.raw| - t.rawClients[acts[n].client].cursor > rt.capacity
    ensures acts[n].client < |Exec(s, acts).rawClients|
    ensures var t, c := Exec(s, acts[..n]), acts[n].client;
            var rt := t.runtimes[t.rawClients[c].rt];
            var missed := |rt.raw| - rt.capacity - t.rawClients[c].cursor;
            var before, after := H.RawReplay(t.rawClients[c].events), H.RawReplay(Exec(s, acts).rawClients[c].events);
            && after.status == H.Overrun
            && after.sent == before.sent + (if acts[n].accepted > 0 then [H.Close(1013, missed)] else [])
            && H.RawTaken(Exec(s, acts).rawClients[c].events) == H.RawTaken(t.rawClients[c].events)
  {
    hide H.RawReplay, H.RawTaken, Continues, RawReceival;
    BlocksAreStable(s, acts, n);
    BlocksAreStable(s, acts, n + 1);
    assert acts[..n + 1][..n] == acts[..n];
    var t, u, c := Exec(s, acts[..n]), Exec(s, acts[..n + 1]), acts[n].client;
    var rt, es := t.runtimes[t.rawClients[c].rt], t.rawClients[c].events;
    var e := H.Lagged(|rt.raw| - rt.capacity - t.rawClients[c].cursor, acts[n].accepted > 0);
    RawReceivalOfDropped(t, c, acts[n].accepted);
    assert u.rawClients[c].events == es + [e];
    assert (es + [e])[..|es|] == es;
    H.RawLagCutsOff(es + [e], |es|);
    RawStoppedStaysTheSame(s, acts, n + 1, c);
  }

  // ----- Published frames -----

  /** Everything in the log decodes: a runtime's id always fits the envelope, as the supervisor sees
      to over any run of reloads. */
  lemma EveryPublishedFrameDecodes(s: State, acts: seq<Action>, i: nat)
    requires Init(s) && IsRun(s, acts) && i < |Exec(s, acts).log|
    ensures var e := Exec(s, acts).log[i];
            && M.DecodeFrameJson(s.lib, Envelope(e)).Some?
            && M.SourceIdFromFrame(Envelope(e)) == Some(e.id)
            && (M.DecodeFrameJson(s.lib, Envelope(e)).value.encoding == M.Base64Text <==> e.frame.Binary?)
  {
    AlwaysShape(s, acts);
    var e := Exec(s, acts).log[i];
    hide Exec;
    M.PublishedProjection(s.lib, e.id, e.ticket % U64_SIZE, e.timestampMs, e.frame);
  }

  lemma {:induction false} PipelinePrefix(lib: M.Library, cfg: H.ClientConfig, xs: seq<H.Timed>, n: nat)
    requires n <= |xs|
    ensures H.Pipeline(lib, cfg, xs[..n]) <= H.Pipeline(lib, cfg, xs)
  {
    if n == |xs| {
      assert xs[..n] == xs;
    } else {
      var past, x := xs[..|xs| - 1], xs[|xs| - 1];
      assert past[..n] == xs[..n] && past + [x] == xs;
      PipelinePrefix(lib, cfg, past, n);
      H.PipelineSnoc(lib, cfg, past, x);
    }
  }

  lemma {:induction false} LibIsConstant(s: State, acts: seq<Action>)
    requires IsRun(s, acts)
    ensures Exec(s, acts).lib == s.lib
  {
    BlocksAreStable(s, acts, 0);
    assert acts[..0] == [];
  }

  /** The log entry at `p` passed the client's source and type filters and was dropped as a
      repeat of something in the client's dedup cache. */
  predicate Suppressed(s: State, c: Client, p: nat) {
    var taken := TakenBy(s, c);
    && c.start <= p < c.start + |taken|
    && var x, past := taken[p - c.start], taken[..p - c.start];
       && H.PassesSource(c.cfg, x.frame) && H.PassesType(s.lib, c.cfg, x.frame)
       && !H.FreshFor(s.lib, H.CacheAfter(s.lib, c.cfg, past), x)
  }

  function HashAt(s: State, p: nat): Option<Data>
    requires p < |s.log|
  {
    M.HashOf(s.lib, s.log[p].frame)
  }

  lemma HashIsRead(s: State, p: nat)
    requires Shape(s) && p < |s.log|
    ensures M.MetaOf(s.lib, Envelope(s.log[p])).contentHash == HashAt(s, p)
  {
    hide M.MetaOf, M.EncodeFrame, M.HashOf;
    var e := s.log[p];
    assert GoodEntry(e, s.runtimes) && GoodRuntime(s.runtimes[e.rt]);
    M.MetaOfPublished(s.lib, e.id, e.ticket % U64_SIZE, e.timestampMs, e.frame);
  }

  lemma SuppressedHasSource(s: State, c: Client, p: nat) returns (q: nat, y: H.Timed)
    requires Shape(s) && ReadsBlock(s, c) && Suppressed(s, c, p)
    ensures c.start <= q < p < |s.log| && y.frame == Envelope(s.log[q])
    ensures HashAt(s, q) == HashAt(s, p) != None
    ensures forall m <- H.Outputs(s.lib, c.cfg, y.frame) :: m in H.Pipeline(s.lib, c.cfg, TakenBy(s, c))
  {
    hide M.MetaOf, HashAt, Shape, Envelope, H.Pipeline, H.CacheAfter, H.FreshFor, H.Taken, H.Replay,
      H.PassesSource, H.PassesType, H.Outputs;
    var xs := TakenBy(s, c);
    var past, x := xs[..p - c.start], xs[p - c.start];
    y := H.SuppressedHasTwin(s.lib, c.cfg, past, x);
    var i :| 0 <= i < |past| && past[i] == y;
    q := c.start + i;
    HashIsRead(s, p);
    HashIsRead(s, q);
    PipelinePrefix(s.lib, c.cfg, xs, p - c.start);
  }

  /** A client without a jq program whose sends have all succeeded never loses content to
      dedup: for each frame suppressed as a repeat it was sent the one message of an earlier
      frame of its block with the same content hash. */
  lemma SuppressedWasSent(s: State, acts: seq<Action>, c: nat, p: nat) returns (q: nat, m: H.Message)
    requires Init(s) && IsRun(s, acts) && c < |Exec(s, acts).clients|
    requires Exec(s, acts).clients[c].cfg.jaq.None?
    requires SessionOf(Exec(s, acts), Exec(s, acts).clients[c]).status != H.SendFailed
    requires Suppressed(Exec(s, acts), Exec(s, acts).clients[c], p)
    ensures var s', client := Exec(s, acts), Exec(s, acts).clients[c];
            && client.start <= q < p < |s'.log|
            && HashAt(s', q) == HashAt(s', p) != None
            && H.Outputs(s'.lib, client.cfg, Envelope(s'.log[q])) == [m]
            && m in H.FrameMessages(SessionOf(s', client).sent)
  {
    LibIsConstant(s, acts);
    ClientsSeeABlock(s, acts, c);
    var s', client := Exec(s, acts), Exec(s, acts).clients[c];
    var y;
    AlwaysShape(s, acts);
    q, y := SuppressedHasSource(s', client, p);
    EveryPublishedFrameDecodes(s, acts, q);
    hide Exec, IsRun, HashAt, Envelope, H.Pipeline, TakenBy, ReadsBlock, Suppressed, M.DecodeFrameJson;
    m := H.Outputs(s'.lib, client.cfg, y.frame)[0];
  }
}
