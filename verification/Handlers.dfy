/** What a downstream client is sent: the filters of `/ws`, the loop that serves one client,
    and the staged pipeline that the loop computes frame by frame. */
module Handlers {
  import opened Bytes
  import opened Wrappers
  import opened Config
  import Dedup
  import M = Multiplex

  // ----- The handshake -----

  /** Options of one `/ws` connection after the handshake. */
  datatype ClientConfig = ClientConfig(
    sources: Option<set<Data>>,
    types: Option<set<Data>>,
    window: Option<nat>,                   // dedup window, when dedup was asked for
    openedAt: nat,                           // when the dedup cache was created
    jaq: Option<Data -> Option<seq<Data>>>,  // compiled program; `None` output is a runtime error
    binary: bool)

  function Max(a: nat, b: nat): nat { if a >= b then a else b }

  function Clamp(x: nat, lo: nat, hi: nat): nat
    requires lo <= hi
  {
    if x < lo then lo else if x > hi then hi else x
  }

  /** The dedup window of a new connection. The policy need not be a valid one: a rejected
      reload has already stored its own. */
  function DedupWindow(policy: DedupPolicy, requestedSecs: Option<nat>): (window: nat)
    ensures SECOND <= window <= Max(policy.maxWindow, SECOND)
    ensures requestedSecs.Some? && 1 <= requestedSecs.value <= policy.maxWindow / SECOND ==>
            window == requestedSecs.value * SECOND
    ensures requestedSecs == Some(0) ==> window == SECOND
    ensures requestedSecs.Some? && requestedSecs.value > policy.maxWindow / SECOND >= 1 ==>
            window == policy.maxWindow / SECOND * SECOND
    ensures requestedSecs.None? && ValidDedup(policy) && policy.defaultWindow % SECOND == 0 ==>
            window == policy.defaultWindow
  {
    var max := Max(policy.maxWindow / SECOND, 1);
    var secs := Clamp(if requestedSecs.Some? then requestedSecs.value else policy.defaultWindow / SECOND, 1, max);
    secs * SECOND
  }

  /** The source filter, or the ids that fail the handshake because nobody knows them. */
  function SourceFilter(requested: seq<Data>, known: set<Data>): (r: Result<Option<set<Data>>, set<Data>>)
    ensures r.Err? <==> exists id :: id in requested && id !in known
    ensures r.Err? ==> forall id :: id in r.error <==> id in requested && id !in known
    ensures r.Ok? ==> (r.value.None? <==> requested == [])
    ensures r.Ok? && r.value.Some? ==> r.value.value <= known && forall id :: id in r.value.value <==> id in requested
  {
    var unknown := set id | id in requested && id !in known;
    if requested == [] then Ok(None)
    else if unknown != {} then
      assert exists id :: id in requested && id !in known by {
        var id :| id in unknown;
      }
      Err(unknown)
    else
      assert forall id :: id in requested ==> id in known by {
        forall id | id in requested
          ensures id in known
        {
          assert id !in unknown;
        }
      }
      Ok(Some(set id | id in requested))
  }

  // ----- One frame, one pass -----

  datatype Message = Text(text: Data) | Binary(data: Data) | Pong(payload: Data) | Close(code: nat, skipped: nat)

  const TRY_AGAIN_LATER: nat := 1013

  predicate PassesSource(cfg: ClientConfig, frame: Data) {
    cfg.sources.None?
    || (M.SourceIdFromFrame(frame).Some? && M.SourceIdFromFrame(frame).value in cfg.sources.value)
  }

  predicate PassesType(lib: M.Library, cfg: ClientConfig, frame: Data) {
    cfg.types.None?
    || (M.MetaOf(lib, frame).payloadType.Some? && M.MetaOf(lib, frame).payloadType.value in cfg.types.value)
  }

  function Texts(outputs: seq<Data>): (ms: seq<Message>)
    ensures |ms| == |outputs|
  {
    seq(|outputs|, i requires 0 <= i < |outputs| => Text(outputs[i]))
  }

  /** The messages a frame that survived the filters turns into. */
  function Outputs(lib: M.Library, cfg: ClientConfig, frame: Data): seq<Message> {
    match cfg.jaq
    case Some(program) =>
      (match M.JsonOf(lib, frame)
       case Some(json) => (match program(json) case Some(outputs) => Texts(outputs) case None => [])
       case None => [])
    case None =>
      if cfg.binary then [Binary(frame)]
      else match M.JsonOf(lib, frame) case Some(json) => [Text(json)] case None => []
  }

  datatype Status = Live | Overrun | SendFailed | Ended

  datatype Session = Session(cache: Option<Dedup.Cache>, sent: seq<Message>, status: Status)

  function Opened(cfg: ClientConfig): Session {
    Session(match cfg.window case Some(w) => Some(Dedup.New(w, cfg.openedAt)) case None => None, [], Live)
  }

  /** Sends `ms` in order on a socket that takes `accepted` more messages. */
  function Deliver(s: Session, ms: seq<Message>, accepted: nat): Session {
    if accepted >= |ms| then s.(sent := s.sent + ms)
    else s.(sent := s.sent + ms[..accepted], status := SendFailed)
  }

  function OnFrame(lib: M.Library, cfg: ClientConfig, s: Session, frame: Data, now: nat, accepted: nat): Session {
    if !PassesSource(cfg, frame) || !PassesType(lib, cfg, frame) then s
    else
      var hash := M.MetaOf(lib, frame).contentHash;
      if s.cache.Some? && hash.Some? then
        var s' := s.(cache := Some(Dedup.AdmitStep(s.cache.value, hash.value, now)));
        if Dedup.Admits(s.cache.value, hash.value, now) then Deliver(s', Outputs(lib, cfg, frame), accepted) else s'
      else Deliver(s, Outputs(lib, cfg, frame), accepted)
  }

  /** What ends a wait in the serving loop, with what the socket does afterwards. */
  datatype Event<F> =
    | Received(frame: F, now: nat, accepted: nat)
    | Lagged(skipped: nat, delivered: bool)
    | ChannelClosed
    | PingIn(payload: Data, delivered: bool)
    | PeerGone
    | OtherIn

  function Act(lib: M.Library, cfg: ClientConfig, s: Session, e: Event<Data>): Session {
    if s.status != Live then s
    else
      match e
      case Received(frame, now, accepted) => OnFrame(lib, cfg, s, frame, now, accepted)
      case Lagged(skipped, delivered) =>
        s.(sent := s.sent + (if delivered then [Close(TRY_AGAIN_LATER, skipped)] else []), status := Overrun)
      case PingIn(payload, delivered) => Deliver(s, [Pong(payload)], if delivered then 1 else 0)
      case ChannelClosed => s.(status := Ended)
      case PeerGone => s.(status := Ended)
      case OtherIn => s
  }

  function Replay(lib: M.Library, cfg: ClientConfig, s: Session, es: seq<Event<Data>>): Session {
    if es == [] then s else Act(lib, cfg, Replay(lib, cfg, s, es[..|es| - 1]), es[|es| - 1])
  }

  lemma {:induction false} ReplayStopped(lib: M.Library, cfg: ClientConfig, s: Session, es: seq<Event<Data>>, n: nat)
    requires n <= |es| && Replay(lib, cfg, s, es[..n]).status != Live
    ensures Replay(lib, cfg, s, es) == Replay(lib, cfg, s, es[..n])
  {
    if n < |es| {
      assert es[..|es| - 1][..n] == es[..n];
      ReplayStopped(lib, cfg, s, es[..|es| - 1], n);
    } else {
      assert es[..n] == es;
    }
  }

  // ----- The serving loop -----

  class Socket {
    var sent: seq<Message>

    constructor ()
      ensures sent == []
    {
      sent := [];
    }

    method Send(m: Message, up: bool) returns (ok: bool)
      modifies this
      ensures ok == up
      ensures sent == if up then old(sent) + [m] else old(sent)
    {
      if up {
        sent := sent + [m];
      }
      ok := up;
    }
  }

  function Plain(e: Event<M.MultiplexFrame>): Event<Data> {
    match e
    case Received(frame, now, accepted) => Received(frame.binary, now, accepted)
    case Lagged(skipped, delivered) => Lagged(skipped, delivered)
    case ChannelClosed => ChannelClosed
    case PingIn(payload, delivered) => PingIn(payload, delivered)
    case PeerGone => PeerGone
    case OtherIn => OtherIn
  }

  function Plains(es: seq<Event<M.MultiplexFrame>>): (r: seq<Event<Data>>)
    ensures |r| == |es|
    ensures forall i :: 0 <= i < |es| ==> r[i] == Plain(es[i])
  {
    seq(|es|, i requires 0 <= i < |es| => Plain(es[i]))
  }

  ghost function FramesOf(es: seq<Event<M.MultiplexFrame>>): set<M.MultiplexFrame> {
    set e | e in es && e.Received? :: e.frame
  }

  ghost function SessionOf(dedup: Dedup.DedupCache?, sent: seq<Message>, status: Status): Session
    reads dedup
  {
    Session(if dedup == null then None else Some(dedup.Contents()), sent, status)
  }

  method Forward(socket: Socket, cfg: ClientConfig, frame: M.MultiplexFrame, accepted: nat) returns (status: Status)
    requires frame.Valid()
    modifies socket, frame
    ensures frame.Valid()
    ensures var s := Deliver(Session(None, old(socket.sent), Live), Outputs(frame.lib, cfg, frame.binary), accepted);
            socket.sent == s.sent && status == s.status
  {
    hide M.JsonOf;
    if cfg.jaq.Some? {
      var json := frame.Json();
      if json.None? {
        return Live;
      }
      var outputs := cfg.jaq.value(json.value);
      if outputs.Some? {
        var ms := Texts(outputs.value);
        for k := 0 to |ms|
          invariant k <= accepted && socket.sent == old(socket.sent) + ms[..k]
          invariant frame.Valid()
        {
          var ok := socket.Send(Text(outputs.value[k]), k < accepted);
          if !ok {
            return SendFailed;
          }
        }
        assert ms[..|ms|] == ms;
      }
      return Live;
    }
    var message;
    if cfg.binary {
      message := Binary(frame.binary);
    } else {
      var json := frame.Json();
      if json.None? {
        return Live;
      }
      message := Text(json.value);
    }
    var ok := socket.Send(message, accepted > 0);
    status := if ok then Live else SendFailed;
  }

  /** One turn of the loop; `continue` is a return with `Live`. */
  method ServeEvent(socket: Socket, lib: M.Library, cfg: ClientConfig, dedup: Dedup.DedupCache?,
                    event: Event<M.MultiplexFrame>)
    returns (status: Status)
    requires event.Received? ==> event.frame.Valid() && event.frame.lib == lib
    modifies socket, dedup, if event.Received? then {event.frame} else {}
    ensures event.Received? ==> event.frame.Valid()
    ensures SessionOf(dedup, socket.sent, status)
            == Act(lib, cfg, old(SessionOf(dedup, socket.sent, Live)), Plain(event))
  {
    hide Outputs, M.MetaOf, M.SourceIdFromFrame, Dedup.Admits, Dedup.AdmitStep;
    match event
    case Received(frame, now, accepted) =>
      if cfg.sources.Some? {
        var source := M.SourceIdFromFrame(frame.binary);
        if source.None? || source.value !in cfg.sources.value {
          return Live;
        }
      }
      if cfg.types.Some? {
        var meta := frame.Meta();
        if meta.payloadType.None? || meta.payloadType.value !in cfg.types.value {
          return Live;
        }
      }
      if dedup != null {
        var meta := frame.Meta();
        if meta.contentHash.Some? {
          var isNew := dedup.Admit(meta.contentHash.value, now);
          if !isNew {
            return Live;
          }
        }
      }
      status := Forward(socket, cfg, frame, accepted);
    case Lagged(skipped, delivered) =>
      var _ := socket.Send(Close(TRY_AGAIN_LATER, skipped), delivered);
      status := Overrun;
    case ChannelClosed =>
      status := Ended;
    case PingIn(payload, delivered) =>
      var ok := socket.Send(Pong(payload), delivered);
      status := if ok then Live else SendFailed;
    case PeerGone =>
      status := Ended;
    case OtherIn =>
      status := Live;
  }

  /** Serves one `/ws` client over any sequence of loop wake-ups, using the shared frames
      and their caches. */
  method ServeMultiplexClient(socket: Socket, lib: M.Library, cfg: ClientConfig, dedup: Dedup.DedupCache?,
                              events: seq<Event<M.MultiplexFrame>>)
    returns (status: Status)
    requires forall f <- FramesOf(events) :: f.Valid() && f.lib == lib
    requires SessionOf(dedup, socket.sent, Live) == Opened(cfg)
    modifies socket, dedup, FramesOf(events)
    ensures forall f <- FramesOf(events) :: f.Valid()
    ensures SessionOf(dedup, socket.sent, status) == Replay(lib, cfg, Opened(cfg), Plains(events))
  {
    hide Act, Plain;
    status := Live;
    var i := 0;
    while i < |events| && status == Live
      invariant 0 <= i <= |events|
      invariant forall f <- FramesOf(events) :: f.Valid()
      invariant SessionOf(dedup, socket.sent, status) == Replay(lib, cfg, Opened(cfg), Plains(events)[..i])
      decreases |events| - i
    {
      ghost var es := Plains(events)[..i + 1];
      assert es[..i] == Plains(events)[..i] && es[i] == Plain(events[i]);
      status := ServeEvent(socket, lib, cfg, dedup, events[i]);
      i := i + 1;
    }
    if status == Live {
      assert Plains(events)[..i] == Plains(events);
    } else {
      ReplayStopped(lib, cfg, Opened(cfg), Plains(events), i);
    }
  }

  // ----- The staged pipeline -----

  /** A frame and the time at which the client's loop took it from the channel. */
  datatype Timed = Timed(frame: Data, now: nat)

  function BySource(cfg: ClientConfig, xs: seq<Timed>): seq<Timed> {
    if xs == [] then []
    else
      var x := xs[|xs| - 1];
      BySource(cfg, xs[..|xs| - 1]) + if PassesSource(cfg, x.frame) then [x] else []
  }

  function ByType(lib: M.Library, cfg: ClientConfig, xs: seq<Timed>): seq<Timed> {
    if xs == [] then []
    else
      var x := xs[|xs| - 1];
      ByType(lib, cfg, xs[..|xs| - 1]) + if PassesType(lib, cfg, x.frame) then [x] else []
  }

  /** The calls of `admit` made for the frames of `xs`. */
  function HashCalls(lib: M.Library, xs: seq<Timed>): seq<Dedup.Call> {
    if xs == [] then []
    else
      var x := xs[|xs| - 1];
      var hash := M.MetaOf(lib, x.frame).contentHash;
      HashCalls(lib, xs[..|xs| - 1]) + if hash.Some? then [Dedup.Call(hash.value, x.now)] else []
  }

  /** The dedup history of a client that was handed `xs` by the earlier stages. */
  function HistoryOf(lib: M.Library, cfg: ClientConfig, xs: seq<Timed>): Dedup.History
    requires cfg.window.Some?
  {
    Dedup.History(cfg.window.value, cfg.openedAt, HashCalls(lib, xs))
  }

  /** The last frame of `xs` is not a repeat of an earlier one. */
  predicate IsFresh(lib: M.Library, cfg: ClientConfig, xs: seq<Timed>)
    requires xs != []
  {
    cfg.window.None?
    || M.MetaOf(lib, xs[|xs| - 1].frame).contentHash.None?
    || (var h := HistoryOf(lib, cfg, xs);
        Dedup.Admitted(h, |h.calls| - 1))
  }

  function ByContent(lib: M.Library, cfg: ClientConfig, xs: seq<Timed>): seq<Timed> {
    if xs == [] then []
    else ByContent(lib, cfg, xs[..|xs| - 1]) + if IsFresh(lib, cfg, xs) then [xs[|xs| - 1]] else []
  }

  function Emit(lib: M.Library, cfg: ClientConfig, xs: seq<Timed>): seq<Message> {
    if xs == [] then [] else Emit(lib, cfg, xs[..|xs| - 1]) + Outputs(lib, cfg, xs[|xs| - 1].frame)
  }

  function Filtered(lib: M.Library, cfg: ClientConfig, xs: seq<Timed>): seq<Timed> {
    ByType(lib, cfg, BySource(cfg, xs))
  }

  /** Each stage applied to the whole block before the next one starts. */
  function Pipeline(lib: M.Library, cfg: ClientConfig, xs: seq<Timed>): seq<Message> {
    Emit(lib, cfg, ByContent(lib, cfg, Filtered(lib, cfg, xs)))
  }

  /** The dedup cache a client should hold once its filters have passed `ys`. */
  function CacheOver(lib: M.Library, cfg: ClientConfig, ys: seq<Timed>): Option<Dedup.Cache> {
    if cfg.window.None? then None
    else
      var h := HistoryOf(lib, cfg, ys);
      Some(Dedup.StateAt(h, |h.calls|))
  }

  function CacheAfter(lib: M.Library, cfg: ClientConfig, xs: seq<Timed>): Option<Dedup.Cache> {
    CacheOver(lib, cfg, Filtered(lib, cfg, xs))
  }

  lemma DropLast<T>(xs: seq<T>, x: T)
    ensures (xs + [x])[..|xs|] == xs && (xs + [x])[|xs|] == x && xs + [] == xs
  {
  }

  lemma StagesSnoc(lib: M.Library, cfg: ClientConfig, xs: seq<Timed>, x: Timed)
    ensures BySource(cfg, xs + [x]) == BySource(cfg, xs) + if PassesSource(cfg, x.frame) then [x] else []
    ensures ByType(lib, cfg, xs + [x]) == ByType(lib, cfg, xs) + if PassesType(lib, cfg, x.frame) then [x] else []
    ensures ByContent(lib, cfg, xs + [x]) ==
            ByContent(lib, cfg, xs) + if IsFresh(lib, cfg, xs + [x]) then [x] else []
    ensures Emit(lib, cfg, xs + [x]) == Emit(lib, cfg, xs) + Outputs(lib, cfg, x.frame)
    ensures HashCalls(lib, xs + [x]) == HashCalls(lib, xs) +
            match M.MetaOf(lib, x.frame).contentHash case Some(hash) => [Dedup.Call(hash, x.now)] case None => []
  {
    DropLast(xs, x);
  }

  lemma FilteredSnoc(lib: M.Library, cfg: ClientConfig, xs: seq<Timed>, x: Timed)
    ensures Filtered(lib, cfg, xs + [x]) == Filtered(lib, cfg, xs) +
            if PassesSource(cfg, x.frame) && PassesType(lib, cfg, x.frame) then [x] else []
  {
    hide PassesSource, PassesType, BySource, ByType;
    StagesSnoc(lib, cfg, xs, x);
    DropLast(BySource(cfg, xs), x);
    DropLast(Filtered(lib, cfg, xs), x);
    StagesSnoc(lib, cfg, BySource(cfg, xs), x);
  }

  /** The last stage that can drop a frame, decided from the cache alone. */
  predicate FreshFor(lib: M.Library, cache: Option<Dedup.Cache>, x: Timed) {
    var hash := M.MetaOf(lib, x.frame).contentHash;
    cache.None? || hash.None? || Dedup.Admits(cache.value, hash.value, x.now)
  }

  function CacheStep(lib: M.Library, cache: Option<Dedup.Cache>, x: Timed): Option<Dedup.Cache> {
    var hash := M.MetaOf(lib, x.frame).contentHash;
    if cache.None? || hash.None? then cache else Some(Dedup.AdmitStep(cache.value, hash.value, x.now))
  }

  lemma LastState(h: Dedup.History)
    requires h.calls != []
    ensures var n := |h.calls| - 1;
            Dedup.StateAt(h, n + 1) == Dedup.AdmitStep(Dedup.StateAt(h, n), h.calls[n].key, h.calls[n].now)
  {
  }

  lemma ContentSnoc(lib: M.Library, cfg: ClientConfig, ys: seq<Timed>, x: Timed)
    ensures IsFresh(lib, cfg, ys + [x]) == FreshFor(lib, CacheOver(lib, cfg, ys), x)
    ensures CacheOver(lib, cfg, ys + [x]) == CacheStep(lib, CacheOver(lib, cfg, ys), x)
  {
    hide M.MetaOf, HashCalls, Dedup.StateAt, Dedup.Gen, Dedup.Start, ByContent, BySource, ByType, Emit, PassesSource,
      PassesType, Outputs;
    StagesSnoc(lib, cfg, ys, x);
    var hash := M.MetaOf(lib, x.frame).contentHash;
    if cfg.window.Some? && hash.Some? {
      var h, call := HistoryOf(lib, cfg, ys), Dedup.Call(hash.value, x.now);
      DropLast(h.calls, call);
      Dedup.PrefixStable(h, [call], |h.calls|);
      assert HistoryOf(lib, cfg, ys + [x]) == h.(calls := h.calls + [call]);
      LastState(h.(calls := h.calls + [call]));
    } else if cfg.window.Some? {
      assert HashCalls(lib, ys) + [] == HashCalls(lib, ys);
    }
  }

  /** What the staged pipeline adds when its block grows by one frame. */
  function Added(lib: M.Library, cfg: ClientConfig, cache: Option<Dedup.Cache>, x: Timed): seq<Message> {
    if PassesSource(cfg, x.frame) && PassesType(lib, cfg, x.frame) && FreshFor(lib, cache, x)
    then Outputs(lib, cfg, x.frame) else []
  }

  lemma PipelineSnoc(lib: M.Library, cfg: ClientConfig, xs: seq<Timed>, x: Timed)
    ensures Pipeline(lib, cfg, xs + [x]) == Pipeline(lib, cfg, xs) + Added(lib, cfg, CacheAfter(lib, cfg, xs), x)
    ensures CacheAfter(lib, cfg, xs + [x]) ==
            if PassesSource(cfg, x.frame) && PassesType(lib, cfg, x.frame)
            then CacheStep(lib, CacheAfter(lib, cfg, xs), x) else CacheAfter(lib, cfg, xs)
  {
    hide PassesSource, PassesType, Outputs, ByContent, Emit, IsFresh, FreshFor, CacheStep;
    FilteredSnoc(lib, cfg, xs, x);
    var ys := Filtered(lib, cfg, xs);
    hide Filtered;
    if PassesSource(cfg, x.frame) && PassesType(lib, cfg, x.frame) {
      ContentSnoc(lib, cfg, ys, x);
      StagesSnoc(lib, cfg, ys, x);
      StagesSnoc(lib, cfg, ByContent(lib, cfg, ys), x);
      DropLast(ByContent(lib, cfg, ys), x);
    } else {
      DropLast(ys, x);
    }
    assert Pipeline(lib, cfg, xs) + [] == Pipeline(lib, cfg, xs);
  }

  /** Handling one more frame on its own adds to the messages sent exactly what the staged
      pipeline adds when its block grows by that frame. */
  lemma OnFrameExtendsPipeline(lib: M.Library, cfg: ClientConfig, s: Session, xs: seq<Timed>, x: Timed, accepted: nat)
    requires s.status == Live && s.cache == CacheAfter(lib, cfg, xs)
    ensures var s' := OnFrame(lib, cfg, s, x.frame, x.now, accepted);
            && s'.cache == CacheAfter(lib, cfg, xs + [x])
            && s' == Deliver(s, Added(lib, cfg, s.cache, x), accepted).(cache := s'.cache)
  {
    hide PassesSource, PassesType, Outputs, CacheAfter, Pipeline, M.MetaOf, Dedup.Admits, Dedup.AdmitStep;
    PipelineSnoc(lib, cfg, xs, x);
    assert s.sent + [] == s.sent;
  }

  // ----- Sessions -----

  /** The frames a session has taken from the channel. */
  function Taken(lib: M.Library, cfg: ClientConfig, es: seq<Event<Data>>): seq<Timed> {
    if es == [] then []
    else
      var past, e := es[..|es| - 1], es[|es| - 1];
      Taken(lib, cfg, past) +
      if Replay(lib, cfg, Opened(cfg), past).status == Live && e.Received? then [Timed(e.frame, e.now)] else []
  }

  /** The messages that carry frames. */
  function FrameMessages(ms: seq<Message>): seq<Message> {
    if ms == [] then []
    else
      var m := ms[|ms| - 1];
      FrameMessages(ms[..|ms| - 1]) + if m.Pong? || m.Close? then [] else [m]
  }

  lemma {:induction false} FrameMessagesConcat(ms: seq<Message>, ns: seq<Message>)
    ensures FrameMessages(ms + ns) == FrameMessages(ms) + FrameMessages(ns)
  {
    if ns == [] {
      assert ms + ns == ms;
    } else {
      var last := |ns| - 1;
      FrameMessagesConcat(ms, ns[..last]);
      assert (ms + ns)[..|ms| + last] == ms + ns[..last];
    }
  }

  ghost predicate CarryFrames(ms: seq<Message>) {
    forall m <- ms :: !m.Pong? && !m.Close?
  }

  lemma {:induction false} FrameMessagesIdentity(ms: seq<Message>)
    requires CarryFrames(ms)
    ensures FrameMessages(ms) == ms
  {
    if ms != [] {
      assert ms[|ms| - 1] in ms;
      FrameMessagesIdentity(ms[..|ms| - 1]);
    }
  }

  /** What a client has been sent, in every way its session can stand. */
  ghost predicate Faithful(lib: M.Library, cfg: ClientConfig, s: Session, xs: seq<Timed>) {
    var pipeline := Pipeline(lib, cfg, xs);
    && s.cache == CacheAfter(lib, cfg, xs)
    && (if s.status == SendFailed then FrameMessages(s.sent) <= pipeline else FrameMessages(s.sent) == pipeline)
    && (forall i :: 0 <= i < |s.sent| && s.sent[i].Close? ==>
          s.status == Overrun && i == |s.sent| - 1 && s.sent[i].code == TRY_AGAIN_LATER)
  }

  lemma DeliverFrames(s: Session, ms: seq<Message>, accepted: nat)
    requires CarryFrames(ms)
    ensures var s' := Deliver(s, ms, accepted);
            FrameMessages(s'.sent) == FrameMessages(s.sent) + if accepted >= |ms| then ms else ms[..accepted]
  {
    var sent := if accepted >= |ms| then ms else ms[..accepted];
    FrameMessagesConcat(s.sent, sent);
    FrameMessagesIdentity(sent);
  }

  lemma AddedCarriesFrames(lib: M.Library, cfg: ClientConfig, cache: Option<Dedup.Cache>, x: Timed)
    ensures CarryFrames(Added(lib, cfg, cache, x))
  {
  }

  lemma FaithfulFrame(lib: M.Library, cfg: ClientConfig, s: Session, xs: seq<Timed>, x: Timed, accepted: nat)
    requires s.status == Live && Faithful(lib, cfg, s, xs)
    ensures Faithful(lib, cfg, OnFrame(lib, cfg, s, x.frame, x.now, accepted), xs + [x])
  {
    hide OnFrame, Pipeline, CacheAfter, Added, FrameMessages, PassesSource, PassesType, CacheStep;
    var added := Added(lib, cfg, s.cache, x);
    AddedCarriesFrames(lib, cfg, s.cache, x);
    OnFrameExtendsPipeline(lib, cfg, s, xs, x, accepted);
    PipelineSnoc(lib, cfg, xs, x);
    DeliverFrames(s, added, accepted);
    var s' := OnFrame(lib, cfg, s, x.frame, x.now, accepted);
    var sent := if accepted >= |added| then added else added[..accepted];
    assert forall i :: 0 <= i < |s'.sent| && s'.sent[i].Close? ==> i < |s.sent| || sent[i - |s.sent|] in added;
  }

  lemma PongsAndClosesCarryNothing<F>(e: Event<F>)
    ensures e.PingIn? ==> FrameMessages([Pong(e.payload)]) == []
    ensures e.Lagged? ==> FrameMessages([Close(TRY_AGAIN_LATER, e.skipped)]) == []
    ensures FrameMessages([]) == []
  {
  }

  lemma FaithfulStep(lib: M.Library, cfg: ClientConfig, s: Session, xs: seq<Timed>, e: Event<Data>)
    requires s.status == Live && Faithful(lib, cfg, s, xs)
    ensures Faithful(lib, cfg, Act(lib, cfg, s, e), xs + if e.Received? then [Timed(e.frame, e.now)] else [])
  {
    hide OnFrame, Pipeline, CacheAfter, FrameMessages;
    assert xs + [] == xs;
    PongsAndClosesCarryNothing(e);
    match e
    case Received(frame, now, accepted) =>
      FaithfulFrame(lib, cfg, s, xs, Timed(frame, now), accepted);
    case Lagged(skipped, delivered) =>
      FrameMessagesConcat(s.sent, if delivered then [Close(TRY_AGAIN_LATER, skipped)] else []);
      assert Act(lib, cfg, s, e).sent == s.sent + if delivered then [Close(TRY_AGAIN_LATER, skipped)] else [];
    case PingIn(payload, delivered) =>
      FrameMessagesConcat(s.sent, if delivered then [Pong(payload)] else []);
      assert Act(lib, cfg, s, e).sent == s.sent + if delivered then [Pong(payload)] else [];
    case _ =>
  }

  /** Single pass and staged pipeline agree over every run of the loop: the frames sent are
      the pipeline's output for the block of frames taken, cut short only by a failed send;
      Close 1013 can only be the last message, after a lag. */
  lemma {:induction false} ReplayIsPipeline(lib: M.Library, cfg: ClientConfig, es: seq<Event<Data>>)
    ensures Faithful(lib, cfg, Replay(lib, cfg, Opened(cfg), es), Taken(lib, cfg, es))
  {
    if es != [] {
      var past := es[..|es| - 1];
      ReplayIsPipeline(lib, cfg, past);
      var s := Replay(lib, cfg, Opened(cfg), past);
      if s.status == Live {
        FaithfulStep(lib, cfg, s, Taken(lib, cfg, past), es[|es| - 1]);
      } else {
        assert Taken(lib, cfg, es) == Taken(lib, cfg, past);
      }
    }
  }

  // ----- How sessions go on and end -----

  lemma ReplaySnoc(lib: M.Library, cfg: ClientConfig, es: seq<Event<Data>>, e: Event<Data>)
    ensures Replay(lib, cfg, Opened(cfg), es + [e]) == Act(lib, cfg, Replay(lib, cfg, Opened(cfg), es), e)
  {
    assert (es + [e])[..|es|] == es;
  }

  /** What an event other than a frame does to a session: pings are answered with what they carry, a lag
      draws Close 1013 with the number of frames missed, and it, a peer that has gone and a
      closed channel end the session, as does a failed answer. */
  lemma EventsAreAnswered(lib: M.Library, cfg: ClientConfig, es: seq<Event<Data>>, e: Event<Data>)
    requires Replay(lib, cfg, Opened(cfg), es).status == Live && !e.Received?
    ensures var s, t := Replay(lib, cfg, Opened(cfg), es), Replay(lib, cfg, Opened(cfg), es + [e]);
            && t.cache == s.cache
            && (e.Lagged? ==>
                  && t.status == Overrun
                  && t.sent == s.sent + if e.delivered then [Close(1013, e.skipped)] else [])
            && (e.PingIn? ==>
                  && t.status == (if e.delivered then Live else SendFailed)
                  && t.sent == s.sent + if e.delivered then [Pong(e.payload)] else [])
            && (e.ChannelClosed? || e.PeerGone? ==> t.status == Ended && t.sent == s.sent)
            && (e.OtherIn? ==> t == s)
  {
    hide Replay, OnFrame;
    ReplaySnoc(lib, cfg, es, e);
  }

  /** A frame adds to what is sent just what it adds to the output of the pipeline, as far as the socket
      takes it; and the session goes on exactly if the socket takes it all. */
  lemma FramesAreSent(lib: M.Library, cfg: ClientConfig, es: seq<Event<Data>>, frame: Data, now: nat, accepted: nat)
    returns (added: seq<Message>)
    requires Replay(lib, cfg, Opened(cfg), es).status == Live
    ensures var s, t := Replay(lib, cfg, Opened(cfg), es),
                        Replay(lib, cfg, Opened(cfg), es + [Received(frame, now, accepted)]);
            var xs := Taken(lib, cfg, es);
            && Pipeline(lib, cfg, xs + [Timed(frame, now)]) == Pipeline(lib, cfg, xs) + added
            && t.sent == s.sent + (if accepted < |added| then added[..accepted] else added)
            && t.status == if accepted < |added| then SendFailed else Live
  {
    hide Replay, OnFrame, Pipeline, CacheAfter, Added, Taken;
    var s, xs, x := Replay(lib, cfg, Opened(cfg), es), Taken(lib, cfg, es), Timed(frame, now);
    ReplayIsPipeline(lib, cfg, es);
    ReplaySnoc(lib, cfg, es, Received(frame, now, accepted));
    OnFrameExtendsPipeline(lib, cfg, s, xs, x, accepted);
    PipelineSnoc(lib, cfg, xs, x);
    added := Added(lib, cfg, s.cache, x);
  }

  /** A session that has ended takes nothing more. */
  lemma {:induction false} StoppedTakesNothing(lib: M.Library, cfg: ClientConfig, es: seq<Event<Data>>, n: nat)
    requires n <= |es| && Replay(lib, cfg, Opened(cfg), es[..n]).status != Live
    ensures Taken(lib, cfg, es) == Taken(lib, cfg, es[..n])
  {
    hide Replay;
    if n == |es| {
      assert es[..n] == es;
    } else {
      var past := es[..|es| - 1];
      assert past[..n] == es[..n];
      StoppedTakesNothing(lib, cfg, past, n);
      ReplayStopped(lib, cfg, Opened(cfg), past, n);
    }
  }

  /** A live client that lags is cut off there and then, whatever comes after: it is sent Close 1013 last,
      if the socket takes it, and takes no frame any more. */
  lemma LagCutsOff(lib: M.Library, cfg: ClientConfig, es: seq<Event<Data>>, n: nat)
    requires n < |es| && es[n].Lagged? && Replay(lib, cfg, Opened(cfg), es[..n]).status == Live
    ensures var s, t := Replay(lib, cfg, Opened(cfg), es[..n]), Replay(lib, cfg, Opened(cfg), es);
            && t.status == Overrun
            && t.sent == s.sent + (if es[n].delivered then [Close(1013, es[n].skipped)] else [])
            && Taken(lib, cfg, es) == Taken(lib, cfg, es[..n])
  {
    hide Replay;
    assert es[..n + 1] == es[..n] + [es[n]] && es[..n + 1][..n] == es[..n];
    EventsAreAnswered(lib, cfg, es[..n], es[n]);
    ReplayStopped(lib, cfg, Opened(cfg), es, n + 1);
    StoppedTakesNothing(lib, cfg, es, n + 1);
  }

  // ----- Suppressed frames -----

  lemma {:induction false} ContentIsTaken(lib: M.Library, cfg: ClientConfig, ys: seq<Timed>, y: Timed)
    requires y in ByContent(lib, cfg, ys)
    ensures y in ys
  {
    if y in ByContent(lib, cfg, ys[..|ys| - 1]) {
      ContentIsTaken(lib, cfg, ys[..|ys| - 1], y);
    }
  }

  lemma {:induction false} TypeIsTaken(lib: M.Library, cfg: ClientConfig, xs: seq<Timed>, y: Timed)
    requires y in ByType(lib, cfg, xs)
    ensures y in xs
  {
    if y in ByType(lib, cfg, xs[..|xs| - 1]) {
      TypeIsTaken(lib, cfg, xs[..|xs| - 1], y);
    }
  }

  lemma {:induction false} SourceIsTaken(cfg: ClientConfig, xs: seq<Timed>, y: Timed)
    requires y in BySource(cfg, xs)
    ensures y in xs
  {
    if y in BySource(cfg, xs[..|xs| - 1]) {
      SourceIsTaken(cfg, xs[..|xs| - 1], y);
    }
  }

  /** Every admission in a client's dedup history belongs to a frame that the stage let through. */
  lemma {:induction false} AdmissionHasFrame(lib: M.Library, cfg: ClientConfig, ys: seq<Timed>, i: nat)
    returns (y: Timed)
    requires cfg.window.Some?
    requires i < |HashCalls(lib, ys)| && Dedup.Admitted(HistoryOf(lib, cfg, ys), i)
    ensures y in ByContent(lib, cfg, ys)
    ensures M.MetaOf(lib, y.frame).contentHash == Some(HashCalls(lib, ys)[i].key)
    ensures y.now == HashCalls(lib, ys)[i].now
  {
    hide M.MetaOf, Dedup.StateAt, Dedup.Admitted;
    var past, x := ys[..|ys| - 1], ys[|ys| - 1];
    var calls := HashCalls(lib, past);
    if i < |calls| {
      var h := HistoryOf(lib, cfg, past);
      Dedup.PrefixStable(h, HashCalls(lib, ys)[|calls|..], |calls|);
      assert HashCalls(lib, ys) == calls + HashCalls(lib, ys)[|calls|..];
      y := AdmissionHasFrame(lib, cfg, past, i);
    } else {
      y := x;
    }
  }

  lemma {:induction false} EmitIncludes(lib: M.Library, cfg: ClientConfig, zs: seq<Timed>, z: Timed, m: Message)
    requires z in zs && m in Outputs(lib, cfg, z.frame)
    ensures m in Emit(lib, cfg, zs)
  {
    var last := |zs| - 1;
    if z in zs[..last] {
      EmitIncludes(lib, cfg, zs[..last], z, m);
    } else {
      assert z == zs[last];
    }
  }

  /** A frame is dropped as a repeat only if an earlier frame with the same content hash
      passed every filter of this client: all the messages that frame stands for are already
      in the client's stream. */
  lemma SuppressedHasTwin(lib: M.Library, cfg: ClientConfig, xs: seq<Timed>, x: Timed) returns (y: Timed)
    requires PassesSource(cfg, x.frame) && PassesType(lib, cfg, x.frame)
    requires !FreshFor(lib, CacheAfter(lib, cfg, xs), x)
    ensures y in xs && y in ByContent(lib, cfg, Filtered(lib, cfg, xs))
    ensures M.MetaOf(lib, y.frame).contentHash == M.MetaOf(lib, x.frame).contentHash != None
    ensures forall m <- Outputs(lib, cfg, y.frame) :: m in Pipeline(lib, cfg, xs)
  {
    hide PassesSource, PassesType, M.MetaOf, Dedup.StateAt, Outputs;
    var ys := Filtered(lib, cfg, xs);
    var hash := M.MetaOf(lib, x.frame).contentHash.value;
    var h := HistoryOf(lib, cfg, ys);
    var n, longer := |h.calls|, h.(calls := h.calls + [Dedup.Call(hash, x.now)]);
    Dedup.PrefixStable(h, [Dedup.Call(hash, x.now)], n);
    Dedup.SuppressedIffRecent(longer, n);
    var i :| 0 <= i < n && longer.calls[i].key == hash && Dedup.Admitted(longer, i);
    y := AdmissionHasFrame(lib, cfg, ys, i);
    ContentIsTaken(lib, cfg, ys, y);
    TypeIsTaken(lib, cfg, BySource(cfg, xs), y);
    SourceIsTaken(cfg, xs, y);
    forall m | m in Outputs(lib, cfg, y.frame)
      ensures m in Pipeline(lib, cfg, xs)
    {
      EmitIncludes(lib, cfg, ByContent(lib, cfg, ys), y, m);
    }
  }

  // ----- Clients of one source -----

  function RawMessage(frame: M.RawFrame): Message {
    if frame.Text? then Text(frame.text) else Binary(frame.data)
  }

  function RawMessages(frames: seq<M.RawFrame>): (ms: seq<Message>)
    ensures |ms| == |frames| && CarryFrames(ms)
  {
    seq(|frames|, i requires 0 <= i < |frames| => RawMessage(frames[i]))
  }

  function RawAct(s: Session, e: Event<M.RawFrame>): Session {
    if s.status != Live then s
    else
      match e
      case Received(frame, _, accepted) => Deliver(s, [RawMessage(frame)], accepted)
      case Lagged(skipped, delivered) =>
        s.(sent := s.sent + (if delivered then [Close(TRY_AGAIN_LATER, skipped)] else []), status := Overrun)
      case PingIn(payload, delivered) => Deliver(s, [Pong(payload)], if delivered then 1 else 0)
      case ChannelClosed => s.(status := Ended)
      case PeerGone => s.(status := Ended)
      case OtherIn => s
  }

  const RAW_OPENED := Session(None, [], Live)

  function RawReplay(es: seq<Event<M.RawFrame>>): Session {
    if es == [] then RAW_OPENED else RawAct(RawReplay(es[..|es| - 1]), es[|es| - 1])
  }

  function RawTaken(es: seq<Event<M.RawFrame>>): seq<M.RawFrame> {
    if es == [] then []
    else
      var past, e := es[..|es| - 1], es[|es| - 1];
      RawTaken(past) + if RawReplay(past).status == Live && e.Received? then [e.frame] else []
  }

  lemma {:induction false} RawReplayStopped(es: seq<Event<M.RawFrame>>, n: nat)
    requires n <= |es| && RawReplay(es[..n]).status != Live
    ensures RawReplay(es) == RawReplay(es[..n])
  {
    if n < |es| {
      assert es[..|es| - 1][..n] == es[..n];
      RawReplayStopped(es[..|es| - 1], n);
    } else {
      assert es[..n] == es;
    }
  }

  method ServeRawClient(socket: Socket, events: seq<Event<M.RawFrame>>) returns (status: Status)
    requires socket.sent == []
    modifies socket
    ensures Session(None, socket.sent, status) == RawReplay(events)
  {
    var i := 0;
    while i < |events|
      invariant 0 <= i <= |events|
      invariant Session(None, socket.sent, Live) == RawReplay(events[..i])
    {
      assert events[..i + 1][..i] == events[..i];
      status := Live;
      match events[i] {
        case Received(frame, _, accepted) =>
          var ok := socket.Send(RawMessage(frame), accepted > 0);
          status := if ok then Live else SendFailed;
        case Lagged(skipped, delivered) =>
          var _ := socket.Send(Close(TRY_AGAIN_LATER, skipped), delivered);
          status := Overrun;
        case ChannelClosed => status := Ended;
        case PingIn(payload, delivered) =>
          var ok := socket.Send(Pong(payload), delivered);
          status := if ok then Live else SendFailed;
        case PeerGone => status := Ended;
        case OtherIn =>
      }
      if status != Live {
        RawReplayStopped(events, i + 1);
        return;
      }
      i := i + 1;
    }
    assert events[..|events|] == events;
    status := Live;
  }

  ghost predicate RawFaithful(s: Session, frames: seq<M.RawFrame>) {
    && (if s.status == SendFailed then FrameMessages(s.sent) <= RawMessages(frames)
        else FrameMessages(s.sent) == RawMessages(frames))
    && (forall i :: 0 <= i < |s.sent| && s.sent[i].Close? ==>
          s.status == Overrun && i == |s.sent| - 1 && s.sent[i].code == TRY_AGAIN_LATER)
  }

  lemma RawFaithfulStep(s: Session, frames: seq<M.RawFrame>, e: Event<M.RawFrame>)
    requires s.status == Live && RawFaithful(s, frames)
    ensures RawFaithful(RawAct(s, e), frames + if e.Received? then [e.frame] else [])
  {
    hide FrameMessages;
    PongsAndClosesCarryNothing(e);
    assert frames + [] == frames;
    match e
    case Received(frame, _, accepted) =>
      DeliverFrames(s, [RawMessage(frame)], accepted);
      assert RawMessages(frames + [frame]) == RawMessages(frames) + [RawMessage(frame)];
    case Lagged(skipped, delivered) =>
      FrameMessagesConcat(s.sent, if delivered then [Close(TRY_AGAIN_LATER, skipped)] else []);
    case PingIn(payload, delivered) =>
      FrameMessagesConcat(s.sent, if delivered then [Pong(payload)] else []);
      assert RawAct(s, e).sent == s.sent + if delivered then [Pong(payload)] else [];
    case _ =>
  }

  /** A source client receives the frames it took unchanged, all of them and in order. */
  lemma {:induction false} RawReplayIsIdentity(es: seq<Event<M.RawFrame>>)
    ensures RawFaithful(RawReplay(es), RawTaken(es))
  {
    if es != [] {
      var past := es[..|es| - 1];
      RawReplayIsIdentity(past);
      if RawReplay(past).status == Live {
        RawFaithfulStep(RawReplay(past), RawTaken(past), es[|es| - 1]);
      } else {
        assert RawTaken(es) == RawTaken(past);
      }
    }
  }

  lemma RawReplaySnoc(es: seq<Event<M.RawFrame>>, e: Event<M.RawFrame>)
    ensures RawReplay(es + [e]) == RawAct(RawReplay(es), e)
  {
    assert (es + [e])[..|es|] == es;
  }

  /** What each event does to a source client's session: a text is passed on as text and a binary as
      binary, and the other events are answered as for `/ws`. */
  lemma RawEventsAreAnswered(es: seq<Event<M.RawFrame>>, e: Event<M.RawFrame>)
    requires RawReplay(es).status == Live
    ensures var s, t := RawReplay(es), RawReplay(es + [e]);
            && (e.Received? ==>
                  var message := match e.frame case Text(text) => Text(text) case Binary(data) => Binary(data);
                  && t.status == (if e.accepted > 0 then Live else SendFailed)
                  && t.sent == s.sent + if e.accepted > 0 then [message] else [])
            && (e.Lagged? ==>
                  && t.status == Overrun
                  && t.sent == s.sent + if e.delivered then [Close(1013, e.skipped)] else [])
            && (e.PingIn? ==>
                  && t.status == (if e.delivered then Live else SendFailed)
                  && t.sent == s.sent + if e.delivered then [Pong(e.payload)] else [])
            && (e.ChannelClosed? || e.PeerGone? ==> t.status == Ended && t.sent == s.sent)
            && (e.OtherIn? ==> t == s)
  {
    hide RawReplay;
    RawReplaySnoc(es, e);
  }

  /** A source client's session that has ended takes nothing more. */
  lemma {:induction false} RawStoppedTakesNothing(es: seq<Event<M.RawFrame>>, n: nat)
    requires n <= |es| && RawReplay(es[..n]).status != Live
    ensures RawTaken(es) == RawTaken(es[..n])
  {
    hide RawReplay;
    if n == |es| {
      assert es[..n] == es;
    } else {
      var past := es[..|es| - 1];
      assert past[..n] == es[..n];
      RawStoppedTakesNothing(past, n);
      RawReplayStopped(past, n);
    }
  }

  lemma RawTakenSnoc(es: seq<Event<M.RawFrame>>, e: Event<M.RawFrame>)
    ensures RawTaken(es + [e]) ==
            RawTaken(es) + if RawReplay(es).status == Live && e.Received? then [e.frame] else []
  {
    assert (es + [e])[..|es|] == es;
  }

  /** A live source client that lags is cut off there and then, whatever comes after: it is sent Close 1013
      last, if the socket takes it, and takes no frame any more. */
  lemma RawLagCutsOff(es: seq<Event<M.RawFrame>>, n: nat)
    requires n < |es| && es[n].Lagged? && RawReplay(es[..n]).status == Live
    ensures var s, t := RawReplay(es[..n]), RawReplay(es);
            && t.status == Overrun
            && t.sent == s.sent + (if es[n].delivered then [Close(1013, es[n].skipped)] else [])
            && RawTaken(es) == RawTaken(es[..n])
  {
    hide RawReplay, RawTaken;
    assert es[..n + 1] == es[..n] + [es[n]] && es[..n + 1][..n] == es[..n];
    RawEventsAreAnswered(es[..n], es[n]);
    RawReplayStopped(es, n + 1);
    RawStoppedTakesNothing(es, n + 1);
    RawTakenSnoc(es[..n], es[n]);
  }
}
