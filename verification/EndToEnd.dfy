/** From the upstream to a client: which entries of the multiplex log a client of `/ws` is sent, in
    what form, and that its sequence numbers show a client to have missed nothing. */
module EndToEnd {
  import opened Bytes
  import opened Relay
  import opened Wrappers
  import opened Sequencing
  import opened Delivery
  import Dedup
  import S = Stages
  import H = Handlers
  import M = Multiplex

  // ----- What a client asks for -----

  /** The entry comes from one of the sources asked for, and its message names one of the types asked
      for, whatever the case of its letters. */
  ghost predicate Wanted(s: State, cfg: H.ClientConfig, e: Entry) {
    && (cfg.sources.None? || e.id in cfg.sources.value)
    && (cfg.types.None? ||
        exists raised <- cfg.types.value ::
          M.TypeNameOf(s.lib, e.frame).Some? && M.IsRaised(M.TypeNameOf(s.lib, e.frame).value, raised))
  }

  function FieldsOf(e: Entry): M.Fields {
    M.PublishedFields(e.id, e.ticket % U64_SIZE, e.timestampMs, e.frame)
  }

  /** The message frames the entry's fields, and the documented decoder reads them off it except
      for a leading U+FEFF. */
  predicate IsEnvelope(m: H.Message, e: Entry) {
    && m.Binary?
    && M.StrictDecode(m.data) == Some(FieldsOf(e))
    && M.DocumentedDecode(m.data) == Some(M.WithoutMarks(FieldsOf(e)))
  }

  predicate Projects(lib: M.Library, p: M.Projection, e: Entry) {
    && p.source == e.id && p.sequence == e.ticket % U64_SIZE && p.timestampMs == e.timestampMs
    && p.kind == e.frame.Kind()
    && (p.encoding == M.Base64Text <==> e.frame.Binary?)
    && M.ReadPayload(p) == if p.encoding == M.Json then lib.rawValue(e.frame.Payload()) else Some(e.frame.Payload())
  }

  /** The message is JSON with the entry's source, number, time and kind, and a payload that the
      documented reader takes for the entry's: its exact bytes, or the JSON value it consists of. */
  ghost predicate IsProjection(lib: M.Library, m: H.Message, e: Entry) {
    exists p: M.Projection ::
      m == H.Text(lib.toJson(p)) && Projects(lib, p, e)
  }

  /** The messages an entry turns into: the outputs of the client's jq program on its JSON form, or
      else the one message in the form asked for. */
  ghost predicate IsGroup(s: State, cfg: H.ClientConfig, e: Entry, group: seq<H.Message>) {
    match cfg.jaq
    case Some(program) =>
      exists p: M.Projection ::
        && Projects(s.lib, p, e)
        && var outputs := program(s.lib.toJson(p));
           if outputs.None? then group == []
           else |group| == |outputs.value| && forall i :: 0 <= i < |group| ==> group[i] == H.Text(outputs.value[i])
    case None =>
      |group| == 1 && if cfg.binary then IsEnvelope(group[0], e) else IsProjection(s.lib, group[0], e)
  }

  /** The positions in the log that a client is sent, those with a content hash that it asked for, and
      the messages that the former turn into. */
  datatype Service = Service(ps: seq<nat>, hs: seq<nat>, groups: seq<seq<H.Message>>)

  /** When the client took the entry at `p` from the channel. */
  function TimeOf(s: State, client: Client, p: nat): nat
    requires client.start <= p < client.start + |TakenBy(s, client)|
  {
    TakenBy(s, client)[p - client.start].now
  }

  ghost predicate InBlock(s: State, client: Client, ps: seq<nat>) {
    && client.start <= client.cursor <= |s.log| && |TakenBy(s, client)| == client.cursor - client.start
    && (forall k :: 0 <= k < |ps| ==> client.start <= ps[k] < client.cursor && Wanted(s, client.cfg, s.log[ps[k]]))
    && (forall k, l :: 0 <= k < l < |ps| ==> ps[k] < ps[l])
  }

  /** The content hashes a client's dedup cache is asked about. */
  ghost function HistoryFor(s: State, client: Client, hs: seq<nat>): Dedup.History
    requires client.cfg.window.Some? && InBlock(s, client, hs)
    requires forall i :: 0 <= i < |hs| ==> HashAt(s, hs[i]).Some?
  {
    Dedup.History(client.cfg.window.value, client.cfg.openedAt,
                  seq(|hs|, i requires 0 <= i < |hs| => Dedup.Call(HashAt(s, hs[i]).value, TimeOf(s, client, hs[i]))))
  }

  /** The client is sent the wanted entries of its block, each once and in order, except for those
      whose hash its dedup cache suppresses at the time. */
  ghost predicate Selects(s: State, client: Client, v: Service) {
    && InBlock(s, client, v.ps) && InBlock(s, client, v.hs)
    && (forall i :: 0 <= i < |v.hs| ==> HashAt(s, v.hs[i]).Some?)
    && (forall p :: client.start <= p < client.cursor && Wanted(s, client.cfg, s.log[p]) ==>
          if HashAt(s, p).Some? then p in v.hs else p in v.ps)
    && (if client.cfg.window.None? then forall p <- v.hs :: p in v.ps
        else forall i :: 0 <= i < |v.hs| ==> (v.hs[i] in v.ps <==> Dedup.Admitted(HistoryFor(s, client, v.hs), i)))
  }

  /** Whatever is suppressed, the client has been sent an earlier entry with the same hash. */
  ghost predicate LosesRepeatsOnly(s: State, client: Client, v: Service)
    requires InBlock(s, client, v.ps)
  {
    forall p :: client.start <= p < client.cursor && Wanted(s, client.cfg, s.log[p]) && p !in v.ps ==>
      exists q <- v.ps :: q < p && HashAt(s, q) == HashAt(s, p) != None
  }

  /** Two entries with the same hash are sent only if they were taken more than a window apart. */
  ghost predicate RepeatsAreApart(s: State, client: Client, v: Service)
    requires client.cfg.window.Some? && InBlock(s, client, v.ps)
  {
    forall k, l :: 0 <= k < l < |v.ps| && HashAt(s, v.ps[k]) == HashAt(s, v.ps[l]) != None ==>
      TimeOf(s, client, v.ps[l]) > TimeOf(s, client, v.ps[k]) + client.cfg.window.value
  }

  /** The client's frame messages are those of the selected entries, in order and up to a failed send. */
  ghost predicate Delivered(s: State, client: Client, v: Service)
    requires InBlock(s, client, v.ps)
  {
    var session := SessionOf(s, client);
    var ms := H.FrameMessages(session.sent);
    && |v.groups| == |v.ps|
    && (forall k :: 0 <= k < |v.ps| ==> IsGroup(s, client.cfg, s.log[v.ps[k]], v.groups[k]))
    && (if session.status == H.SendFailed then ms <= S.Joined(v.groups) else ms == S.Joined(v.groups))
  }

  // ----- Entries and frames -----

  lemma EnvelopeIsRead(e: Entry, runtimes: seq<Runtime>)
    requires GoodEntry(e, runtimes) && GoodRuntime(runtimes[e.rt])
    ensures IsEnvelope(H.Binary(Envelope(e)), e)
  {
    hide M.EncodeFrame, M.StrictDecode, M.DocumentedDecode, M.WithoutMarks;
    M.StrictRoundTrip(FieldsOf(e));
    M.PublishedIsShown(e.id, e.ticket % U64_SIZE, e.timestampMs, e.frame);
  }

  lemma ProjectionIsRead(lib: M.Library, e: Entry, runtimes: seq<Runtime>, m: H.Message)
    requires GoodEntry(e, runtimes) && GoodRuntime(runtimes[e.rt])
    requires M.JsonOf(lib, Envelope(e)).Some? && m == H.Text(M.JsonOf(lib, Envelope(e)).value)
    ensures IsProjection(lib, m, e)
  {
    hide M.EncodeFrame, M.DecodeFrameJson, M.ReadPayload;
    M.ProjectionRoundTrip(lib, FieldsOf(e));
    assert Projects(lib, M.DecodeFrameJson(lib, Envelope(e)).value, e);
  }

  lemma GroupIsRead(s: State, cfg: H.ClientConfig, e: Entry)
    requires GoodEntry(e, s.runtimes) && GoodRuntime(s.runtimes[e.rt])
    ensures IsGroup(s, cfg, e, H.Outputs(s.lib, cfg, Envelope(e)))
  {
    hide M.EncodeFrame, M.DecodeFrameJson, M.ReadPayload, IsEnvelope;
    M.ProjectionRoundTrip(s.lib, FieldsOf(e));
    EnvelopeIsRead(e, s.runtimes);
    var p := M.DecodeFrameJson(s.lib, Envelope(e)).value;
    assert Projects(s.lib, p, e);
    assert M.JsonOf(s.lib, Envelope(e)) == Some(s.lib.toJson(p));
    if cfg.jaq.None? && !cfg.binary {
      ProjectionIsRead(s.lib, e, s.runtimes, H.Text(s.lib.toJson(p)));
    }
  }

  lemma RaisedIsUnique(name: Data, raised: Data, types: set<Data>)
    requires M.IsRaised(name, raised)
    ensures raised in types <==> exists other <- types :: M.IsRaised(name, other)
  {
    forall other | M.IsRaised(name, other)
      ensures other == raised
    {
    }
  }

  /** The filters find in a frame what was published. */
  lemma FrameIsEntry(s: State, cfg: H.ClientConfig, e: Entry, now: nat)
    requires GoodEntry(e, s.runtimes) && GoodRuntime(s.runtimes[e.rt])
    ensures S.Passes(s.lib, cfg, H.Timed(Envelope(e), now)) <==> Wanted(s, cfg, e)
    ensures S.HashOf(s.lib, H.Timed(Envelope(e), now)) == M.HashOf(s.lib, e.frame)
  {
    hide M.EncodeFrame, M.MetaOf, M.SourceIdFromFrame, M.DecodeFrameJson, M.HashOf, M.TypeNameOf;
    M.MetaOfPublished(s.lib, e.id, e.ticket % U64_SIZE, e.timestampMs, e.frame);
    M.PublishedProjection(s.lib, e.id, e.ticket % U64_SIZE, e.timestampMs, e.frame);
    var meta := M.MetaOf(s.lib, Envelope(e));
    if meta.payloadType.Some? && cfg.types.Some? {
      RaisedIsUnique(M.TypeNameOf(s.lib, e.frame).value, meta.payloadType.value, cfg.types.value);
    }
  }

  /** Frame `k` of what a client has taken, as an entry of the log. */
  lemma TakenIsEntry(s: State, client: Client, k: nat)
    requires Shape(s) && ReadsBlock(s, client) && k < |TakenBy(s, client)|
    ensures client.start + k < |s.log|
    ensures var xs := TakenBy(s, client);
            && (S.Passes(s.lib, client.cfg, xs[k]) <==> Wanted(s, client.cfg, s.log[client.start + k]))
            && S.HashOf(s.lib, xs[k]) == HashAt(s, client.start + k)
            && IsGroup(s, client.cfg, s.log[client.start + k], H.Outputs(s.lib, client.cfg, xs[k].frame))
  {
    hide TakenBy, SessionOf, S.Passes, S.HashOf, IsGroup, Wanted, M.HashOf, GoodRuntime, Envelope;
    var e := s.log[client.start + k];
    assert GoodEntry(e, s.runtimes);
    FrameIsEntry(s, client.cfg, e, TakenBy(s, client)[k].now);
    GroupIsRead(s, client.cfg, e);
  }

  function Shifted(start: nat, ks: seq<nat>): (ps: seq<nat>)
    ensures |ps| == |ks| && forall i :: 0 <= i < |ks| ==> ps[i] == start + ks[i]
  {
    seq(|ks|, i requires 0 <= i < |ks| => start + ks[i])
  }

  lemma ShiftedHas(start: nat, ks: seq<nat>, k: nat)
    ensures start + k in Shifted(start, ks) <==> k in ks
  {
    if k in ks {
      var i :| 0 <= i < |ks| && ks[i] == k;
      assert Shifted(start, ks)[i] == start + k;
    }
  }

  lemma TakenLength(s: State, client: Client)
    requires ReadsBlock(s, client)
    ensures client.start <= client.cursor <= |s.log| && |TakenBy(s, client)| == client.cursor - client.start
  {
  }

  function ServiceOf(s: State, client: Client): Service {
    var xs := TakenBy(s, client);
    var ks := S.Sent(s.lib, client.cfg, xs);
    Service(Shifted(client.start, ks),
            Shifted(client.start, S.Hashed(s.lib, client.cfg, xs)),
            seq(|ks|, i requires 0 <= i < |ks| =>
              if ks[i] < |xs| then H.Outputs(s.lib, client.cfg, xs[ks[i]].frame) else []))
  }

  /** A list of frames as a list of entries. */
  lemma ShiftedIsInBlock(s: State, client: Client, ks: seq<nat>)
    requires Shape(s) && ReadsBlock(s, client)
    requires forall i :: 0 <= i < |ks| ==>
               ks[i] < |TakenBy(s, client)| && S.Passes(s.lib, client.cfg, TakenBy(s, client)[ks[i]])
    requires forall i, j :: 0 <= i < j < |ks| ==> ks[i] < ks[j]
    ensures InBlock(s, client, Shifted(client.start, ks))
  {
    hide ReadsBlock, TakenBy, SessionOf, S.Passes, Wanted, Shape, GoodEntry;
    TakenLength(s, client);
    var ps := Shifted(client.start, ks);
    forall i | 0 <= i < |ps|
      ensures client.start <= ps[i] < client.cursor && Wanted(s, client.cfg, s.log[ps[i]])
    {
      TakenIsEntry(s, client, ks[i]);
    }
  }

  lemma BlocksOfService(s: State, client: Client)
    requires Shape(s) && ReadsBlock(s, client)
    ensures var v := ServiceOf(s, client);
            && InBlock(s, client, v.ps) && InBlock(s, client, v.hs)
            && (forall i :: 0 <= i < |v.hs| ==> HashAt(s, v.hs[i]).Some?)
  {
    hide ReadsBlock, TakenBy, SessionOf, S.Sent, S.Hashed, S.Passes, H.FreshFor, S.HashOf, HashAt, Shape, InBlock;
    TakenLength(s, client);
    var xs := TakenBy(s, client);
    S.SentIsListed(s.lib, client.cfg, xs);
    ShiftedIsInBlock(s, client, S.Sent(s.lib, client.cfg, xs));
    var hs := S.Hashed(s.lib, client.cfg, xs);
    ShiftedIsInBlock(s, client, hs);
    forall i | 0 <= i < |hs|
      ensures HashAt(s, client.start + hs[i]).Some?
    {
      TakenIsEntry(s, client, hs[i]);
    }
  }

  lemma HistoryIs(s: State, client: Client)
    requires Shape(s) && ReadsBlock(s, client) && client.cfg.window.Some?
    requires InBlock(s, client, ServiceOf(s, client).hs)
    requires forall i :: 0 <= i < |ServiceOf(s, client).hs| ==> HashAt(s, ServiceOf(s, client).hs[i]).Some?
    ensures HistoryFor(s, client, ServiceOf(s, client).hs) == S.HistoryAt(s.lib, client.cfg, TakenBy(s, client))
  {
    hide ReadsBlock, TakenBy, SessionOf, S.Sent, S.Hashed, S.CallsAt, S.Passes, S.HashOf, HashAt, Shape;
    TakenLength(s, client);
    var xs, v := TakenBy(s, client), ServiceOf(s, client);
    var hs := S.Hashed(s.lib, client.cfg, xs);
    forall i | 0 <= i < |hs|
      ensures HistoryFor(s, client, v.hs).calls[i] == S.HistoryAt(s.lib, client.cfg, xs).calls[i]
    {
      TakenIsEntry(s, client, hs[i]);
    }
  }

  lemma ServiceSelects(s: State, client: Client)
    requires Shape(s) && ReadsBlock(s, client)
    ensures Selects(s, client, ServiceOf(s, client))
  {
    hide ReadsBlock, TakenBy, SessionOf, S.Sent, S.Hashed, S.CallsAt, S.Passes, S.Fresh, S.HashOf, HashAt,
      Shape, Wanted, InBlock, HistoryFor, Dedup.Admitted, Shifted;
    TakenLength(s, client);
    var xs, v := TakenBy(s, client), ServiceOf(s, client);
    var ks, hs := S.Sent(s.lib, client.cfg, xs), S.Hashed(s.lib, client.cfg, xs);
    BlocksOfService(s, client);
    S.SentIsListed(s.lib, client.cfg, xs);
    forall p | client.start <= p < client.cursor && Wanted(s, client.cfg, s.log[p])
      ensures if HashAt(s, p).Some? then p in v.hs else p in v.ps
    {
      var k := p - client.start;
      TakenIsEntry(s, client, k);
      S.UnhashedIsFresh(s.lib, client.cfg, xs, k);
      ShiftedHas(client.start, hs, k);
      ShiftedHas(client.start, ks, k);
    }
    forall i | 0 <= i < |hs|
      ensures v.hs[i] in v.ps <==> S.Fresh(s.lib, client.cfg, xs, hs[i])
      ensures client.cfg.window.None? ==> v.hs[i] in v.ps
    {
      ShiftedHas(client.start, ks, hs[i]);
      S.UnhashedIsFresh(s.lib, client.cfg, xs, hs[i]);
    }
    if client.cfg.window.Some? {
      HistoryIs(s, client);
      forall i | 0 <= i < |hs|
        ensures v.hs[i] in v.ps <==> Dedup.Admitted(HistoryFor(s, client, v.hs), i)
      {
        S.FreshIffAdmitted(s.lib, client.cfg, xs, i);
      }
    }
  }

  lemma ServiceLosesRepeatsOnly(s: State, client: Client)
    requires Shape(s) && ReadsBlock(s, client) && InBlock(s, client, ServiceOf(s, client).ps)
    ensures LosesRepeatsOnly(s, client, ServiceOf(s, client))
  {
    hide ReadsBlock, TakenBy, SessionOf, S.Sent, S.Passes, S.Fresh, S.HashOf, HashAt, Shape, Wanted, InBlock, Shifted,
      IsGroup;
    TakenLength(s, client);
    var xs, ps := TakenBy(s, client), ServiceOf(s, client).ps;
    S.SentIsListed(s.lib, client.cfg, xs);
    forall p | client.start <= p < client.cursor && Wanted(s, client.cfg, s.log[p]) && p !in ps
      ensures exists q <- ps :: q < p && HashAt(s, q) == HashAt(s, p) != None
    {
      var k := p - client.start;
      TakenIsEntry(s, client, k);
      ShiftedHas(client.start, S.Sent(s.lib, client.cfg, xs), k);
      var twin := S.TwinGotThrough(s.lib, client.cfg, xs, k);
      ShiftedHas(client.start, S.Sent(s.lib, client.cfg, xs), twin);
      TakenIsEntry(s, client, twin);
      assert client.start + twin in ps;
    }
  }

  lemma ServiceKeepsApart(s: State, client: Client)
    requires Shape(s) && ReadsBlock(s, client) && InBlock(s, client, ServiceOf(s, client).ps)
    requires client.cfg.window.Some? && client.cfg.window.value > 0 && S.InTime(client.cfg, TakenBy(s, client))
    ensures RepeatsAreApart(s, client, ServiceOf(s, client))
  {
    hide ReadsBlock, TakenBy, SessionOf, S.Sent, S.Passes, S.Fresh, S.HashOf, HashAt, Shape, Wanted, Shifted, S.InTime,
      IsGroup, InBlock, H.Outputs;
    TakenLength(s, client);
    var xs, ps := TakenBy(s, client), ServiceOf(s, client).ps;
    var ks := S.Sent(s.lib, client.cfg, xs);
    S.SentIsListed(s.lib, client.cfg, xs);
    forall k, l | 0 <= k < l < |ps| && HashAt(s, ps[k]) == HashAt(s, ps[l]) != None
      ensures TimeOf(s, client, ps[l]) > TimeOf(s, client, ps[k]) + client.cfg.window.value
    {
      assert ps[k] == client.start + ks[k] && ps[l] == client.start + ks[l];
      TakenIsEntry(s, client, ks[k]);
      TakenIsEntry(s, client, ks[l]);
      S.RepeatsAreApart(s.lib, client.cfg, xs, ks[k], ks[l]);
    }
  }

  lemma ServiceIsDelivered(s: State, client: Client)
    requires Shape(s) && ReadsBlock(s, client) && InBlock(s, client, ServiceOf(s, client).ps)
    requires H.Faithful(s.lib, client.cfg, SessionOf(s, client), TakenBy(s, client))
    ensures Delivered(s, client, ServiceOf(s, client))
  {
    hide ReadsBlock, TakenBy, SessionOf, S.Sent, S.Joined, S.Fresh, Shape, Wanted, IsGroup, H.Pipeline, H.CacheAfter,
      H.Outputs, H.FrameMessages;
    TakenLength(s, client);
    var xs, v := TakenBy(s, client), ServiceOf(s, client);
    var ks := S.Sent(s.lib, client.cfg, xs);
    S.PipelineIsJoined(s.lib, client.cfg, xs);
    assert v.groups == S.GroupsAt(s.lib, client.cfg, xs, ks);
    forall k | 0 <= k < |v.ps|
      ensures IsGroup(s, client.cfg, s.log[v.ps[k]], v.groups[k])
    {
      TakenIsEntry(s, client, ks[k]);
    }
  }

  /** What any client of `/ws` is sent, in every interleaving: the entries of its block that come from a
      source and are of a type it asked for, each once and in order, read off the messages as
      they were published. Only repeats are missing, as its dedup cache judges them by content
      hash and time; nothing is suppressed of which it was not sent an earlier copy, and two
      copies are more than a window apart. */
  lemma ClientIsServed(s: State, acts: seq<Action>, c: nat) returns (v: Service)
    requires Init(s) && IsRun(s, acts) && c < |Exec(s, acts).clients|
    ensures var s', client := Exec(s, acts), Exec(s, acts).clients[c];
            && Selects(s', client, v) && LosesRepeatsOnly(s', client, v) && Delivered(s', client, v)
            && (client.cfg.window.Some? && client.cfg.window.value > 0 && S.InTime(client.cfg, TakenBy(s', client)) ==>
                  RepeatsAreApart(s', client, v))
  {
    hide Exec, IsRun, Init, TakenBy, SessionOf, Shape, ReadsBlock, ServiceOf, LosesRepeatsOnly, Delivered,
      RepeatsAreApart, S.InTime, H.Faithful;
    ClientsSeeABlock(s, acts, c);
    AlwaysShape(s, acts);
    var s', client := Exec(s, acts), Exec(s, acts).clients[c];
    v := ServiceOf(s', client);
    ServiceSelects(s', client);
    ServiceLosesRepeatsOnly(s', client);
    ServiceIsDelivered(s', client);
    if client.cfg.window.Some? && client.cfg.window.value > 0 && S.InTime(client.cfg, TakenBy(s', client)) {
      ServiceKeepsApart(s', client);
    }
  }

  // ----- Sequence numbers -----

  lemma {:induction false} RuntimeLogIndex(log: seq<Entry>, r: nat, a: nat)
    requires a < |log| && log[a].rt == r
    ensures |RuntimeLog(log[..a], r)| < |RuntimeLog(log, r)|
    ensures RuntimeLog(log, r)[|RuntimeLog(log[..a], r)|] == log[a]
  {
    var last := |log| - 1;
    if a < last {
      RuntimeLogIndex(log[..last], r, a);
      assert log[..last][..a] == log[..a];
    }
  }

  lemma {:induction false} RuntimeLogGap(log: seq<Entry>, r: nat, a: nat, b: nat)
    requires a < b <= |log| && log[a].rt == r && forall i :: a < i < b ==> log[i].rt != r
    ensures |RuntimeLog(log[..b], r)| == |RuntimeLog(log[..a], r)| + 1
  {
    assert log[..b][..b - 1] == log[..b - 1];
    if a + 1 < b {
      RuntimeLogGap(log, r, a, b - 1);
    }
  }

  /** Between two neighbouring entries of a runtime in the log no number is skipped. */
  lemma NextNumber(s: State, acts: seq<Action>, r: nat, a: nat, b: nat)
    requires Init(s) && IsRun(s, acts) && SerialRun(s, acts, r)
    requires a < b < |Exec(s, acts).log| && Exec(s, acts).log[a].rt == Exec(s, acts).log[b].rt == r
    requires forall i :: a < i < b ==> Exec(s, acts).log[i].rt != r
    ensures Exec(s, acts).log[b].ticket == Exec(s, acts).log[a].ticket + 1
  {
    AlwaysShape(s, acts);
    AlwaysOrdered(s, acts, r);
    var log := Exec(s, acts).log;
    assert GoodEntry(log[a], Exec(s, acts).runtimes);
    RuntimeLogIndex(log, r, a);
    RuntimeLogIndex(log, r, b);
    RuntimeLogGap(log, r, a, b);
  }

  /** Of two entries of runtime `r` with none of it in between, the later has the next number. */
  ghost predicate NumbersFollow(s: State, ps: seq<nat>, r: nat)
    requires forall k :: 0 <= k < |ps| ==> ps[k] < |s.log|
  {
    forall k, l :: 0 <= k < l < |ps| && s.log[ps[k]].rt == r == s.log[ps[l]].rt
                   && (forall m :: k < m < l ==> s.log[ps[m]].rt != r) ==>
      s.log[ps[l]].ticket == s.log[ps[k]].ticket + 1
  }

  /** No filter but by source, and no jq program. */
  predicate PlainConfig(cfg: H.ClientConfig) {
    cfg.types.None? && cfg.window.None? && cfg.jaq.None?
  }

  /** All entries of a runtime are wanted alike. */
  lemma InBetween(s: State, client: Client, v: Service, k: nat, l: nat, i: nat) returns (m: nat)
    requires Shape(s) && Selects(s, client, v) && PlainConfig(client.cfg)
    requires k < l < |v.ps| && v.ps[k] < i < v.ps[l] && s.log[i].rt == s.log[v.ps[k]].rt
    ensures k < m < l && v.ps[m] == i
  {
    hide GoodRuntime, GoodTask, HashAt, TakenBy;
    assert GoodEntry(s.log[i], s.runtimes) && GoodEntry(s.log[v.ps[k]], s.runtimes);
    assert Wanted(s, client.cfg, s.log[i]);
    assert i in v.ps;
    m :| 0 <= m < |v.ps| && v.ps[m] == i;
  }

  lemma PositionsFollow(s: State, acts: seq<Action>, client: Client, v: Service, r: nat)
    requires Init(s) && IsRun(s, acts) && SerialRun(s, acts, r)
    requires Selects(Exec(s, acts), client, v) && PlainConfig(client.cfg)
    ensures NumbersFollow(Exec(s, acts), v.ps, r)
  {
    AlwaysShape(s, acts);
    hide Exec, IsRun, Init, SerialRun, Shape, Wanted, HashAt, TakenBy;
    var s', ps := Exec(s, acts), v.ps;
    forall k, l | 0 <= k < l < |ps| && s'.log[ps[k]].rt == r == s'.log[ps[l]].rt
                  && (forall m :: k < m < l ==> s'.log[ps[m]].rt != r)
      ensures s'.log[ps[l]].ticket == s'.log[ps[k]].ticket + 1
    {
      forall i | ps[k] < i < ps[l]
        ensures s'.log[i].rt != r
      {
        if s'.log[i].rt == r {
          var m := InBetween(s', client, v, k, l, i);
        }
      }
      NextNumber(s, acts, r, ps[k], ps[l]);
    }
  }

  lemma {:induction false} SinglesJoined(groups: seq<seq<H.Message>>)
    requires forall k :: 0 <= k < |groups| ==> |groups[k]| == 1
    ensures |S.Joined(groups)| == |groups|
    ensures forall k :: 0 <= k < |groups| ==> S.Joined(groups)[k] == groups[k][0]
  {
    if groups != [] {
      SinglesJoined(groups[..|groups| - 1]);
    }
  }

  /** One message for each position, in the form asked for, up to a failed send. */
  ghost predicate SentOneByOne(s: State, client: Client, ps: seq<nat>)
    requires InBlock(s, client, ps)
  {
    var session := SessionOf(s, client);
    var ms := H.FrameMessages(session.sent);
    && |ms| <= |ps| && (session.status != H.SendFailed ==> |ms| == |ps|)
    && (forall k :: 0 <= k < |ms| ==>
          if client.cfg.binary then IsEnvelope(ms[k], s.log[ps[k]]) else IsProjection(s.lib, ms[k], s.log[ps[k]]))
  }

  lemma DeliveredOneByOne(s: State, client: Client, v: Service)
    requires InBlock(s, client, v.ps) && Delivered(s, client, v) && PlainConfig(client.cfg)
    ensures SentOneByOne(s, client, v.ps)
  {
    hide SessionOf, H.FrameMessages, S.Joined, IsEnvelope, IsProjection, Wanted, TakenBy;
    forall k | 0 <= k < |v.ps|
      ensures |v.groups[k]| == 1
    {
      assert IsGroup(s, client.cfg, s.log[v.ps[k]], v.groups[k]);
    }
    SinglesJoined(v.groups);
    var ms := H.FrameMessages(SessionOf(s, client).sent);
    forall k | 0 <= k < |ms|
      ensures ms[k] == v.groups[k][0]
    {
    }
  }

  /** A client of `/ws` with a source filter or none is sent every wanted entry of its block, each in
      one message of the form it asked for; and as long as publishes of a runtime do not
      overlap, the numbers of two messages of that runtime with no other of it in between
      follow each other. */
  lemma PlainClientMissesNothing(s: State, acts: seq<Action>, c: nat) returns (v: Service)
    requires Init(s) && IsRun(s, acts) && c < |Exec(s, acts).clients| && PlainConfig(Exec(s, acts).clients[c].cfg)
    ensures var s', client := Exec(s, acts), Exec(s, acts).clients[c];
            && InBlock(s', client, v.ps)
            && (forall p :: client.start <= p < client.cursor && Wanted(s', client.cfg, s'.log[p]) ==> p in v.ps)
            && SentOneByOne(s', client, v.ps)
            && (forall r :: SerialRun(s, acts, r) ==> NumbersFollow(s', v.ps, r))
  {
    hide Exec, IsRun, Init, SerialRun, Wanted, HashAt, TakenBy, SessionOf, Delivered, SentOneByOne, NumbersFollow,
      LosesRepeatsOnly, RepeatsAreApart;
    v := ClientIsServed(s, acts, c);
    var s', client := Exec(s, acts), Exec(s, acts).clients[c];
    DeliveredOneByOne(s', client, v);
    forall r | SerialRun(s, acts, r)
      ensures NumbersFollow(s', v.ps, r)
    {
      PositionsFollow(s, acts, client, v, r);
    }
  }
}
