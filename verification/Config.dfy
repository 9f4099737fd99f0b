/** Configuration values and the checks every configuration must pass before it is applied. */
module Config {
  import opened Bytes
  import opened Wrappers
  import opened Utf8

  /** Durations are in nanoseconds. */
  const SECOND: nat := 1_000_000_000

  datatype SourceConfig = SourceConfig(
    id: Str,
    url: Str,
    headers: map<Str, Str>,
    disabled: bool,
    proxy: Option<Str>,
    mapping: Option<Str>)

  datatype ReconnectPolicy = ReconnectPolicy(
    initialDelay: nat,
    maxDelay: nat,
    offlineThreshold: nat,
    offlineDelay: nat)

  datatype DedupPolicy = DedupPolicy(defaultWindow: nat, maxWindow: nat)

  datatype Settings = Settings(
    channelCapacity: nat,
    sources: seq<SourceConfig>,
    reconnect: ReconnectPolicy,
    dedup: DedupPolicy,
    adminToken: Str,
    userAgent: Str,
    ignoreTlsErrors: bool)

  datatype ConfigError =
    | NoSources
    | ZeroCapacity
    | NewlineInUserAgent
    | ZeroInitialDelay
    | MaxDelayBelowInitial
    | ZeroOfflineThreshold
    | ZeroOfflineDelay
    | ZeroDedupWindow
    | MaxWindowBelowDefault
    | EmptyId
    | IdTooLong(id: Str)
    | DuplicateId(id: Str)
    | BadProxy(id: Str)

  predicate ValidReconnect(p: ReconnectPolicy) {
    0 < p.initialDelay <= p.maxDelay && p.offlineThreshold > 0 && p.offlineDelay > 0
  }

  predicate ValidDedup(p: DedupPolicy) {
    0 < p.defaultWindow <= p.maxWindow
  }

  predicate ValidId(id: Data) {
    0 < |id| < U16_SIZE
  }

  /** `proxyOk` stands for the URL library's verdict on a proxy setting. */
  predicate ValidSource(proxyOk: Str -> bool, s: SourceConfig) {
    ValidId(s.id) && (s.proxy.Some? ==> proxyOk(s.proxy.value))
  }

  /** What publishing relies on: the id fits the envelope, and the channel holds something. */
  predicate CanPublish(id: Data, capacity: nat) {
    ValidId(id) && capacity > 0
  }

  ghost predicate DistinctIds(sources: seq<SourceConfig>) {
    forall i, j :: 0 <= i < j < |sources| ==> sources[i].id != sources[j].id
  }

  ghost predicate ValidSettings(proxyOk: Str -> bool, c: Settings) {
    && c.sources != []
    && c.channelCapacity > 0
    && 10 !in c.userAgent && 13 !in c.userAgent
    && ValidReconnect(c.reconnect)
    && ValidDedup(c.dedup)
    && (forall i :: 0 <= i < |c.sources| ==> ValidSource(proxyOk, c.sources[i]))
    && DistinctIds(c.sources)
  }

  function Ids(sources: seq<SourceConfig>): (ids: set<Str>)
    ensures forall i :: 0 <= i < |sources| ==> sources[i].id in ids
    ensures forall id :: id in ids ==> exists i :: 0 <= i < |sources| && sources[i].id == id
  {
    set i | 0 <= i < |sources| :: sources[i].id
  }

  /** What a reported error says about the settings that drew it. */
  ghost predicate Explains(proxyOk: Str -> bool, e: ConfigError, c: Settings) {
    match e
    case NoSources => c.sources == []
    case ZeroCapacity => c.channelCapacity == 0
    case NewlineInUserAgent => 10 in c.userAgent || 13 in c.userAgent
    case ZeroInitialDelay => c.reconnect.initialDelay == 0
    case MaxDelayBelowInitial => c.reconnect.maxDelay < c.reconnect.initialDelay
    case ZeroOfflineThreshold => c.reconnect.offlineThreshold == 0
    case ZeroOfflineDelay => c.reconnect.offlineDelay == 0
    case ZeroDedupWindow => c.dedup.defaultWindow == 0
    case MaxWindowBelowDefault => c.dedup.maxWindow < c.dedup.defaultWindow
    case EmptyId => exists i :: 0 <= i < |c.sources| && c.sources[i].id == []
    case IdTooLong(id) => |id| >= U16_SIZE && id in Ids(c.sources)
    case DuplicateId(id) => exists i, j :: 0 <= i < j < |c.sources| && c.sources[i].id == id == c.sources[j].id
    case BadProxy(id) =>
      exists i :: 0 <= i < |c.sources| && c.sources[i].id == id
                  && c.sources[i].proxy.Some? && !proxyOk(c.sources[i].proxy.value)
  }

  lemma NoSourcesYet(sources: seq<SourceConfig>)
    ensures Ids(sources[..0]) == {} && DistinctIds(sources[..0])
  {
  }

  lemma IdOfPrefix(sources: seq<SourceConfig>, i: nat, id: Str)
    requires i <= |sources| && id in Ids(sources[..i])
    ensures exists j :: 0 <= j < i && sources[j].id == id
  {
    hide Utf8.Valid;
    var j :| 0 <= j < i && sources[..i][j].id == id;
    assert sources[j].id == id;
  }

  lemma OneMoreSource(sources: seq<SourceConfig>, i: nat)
    requires i < |sources| && DistinctIds(sources[..i])
    ensures Ids(sources[..i + 1]) == Ids(sources[..i]) + {sources[i].id}
    ensures sources[i].id !in Ids(sources[..i]) ==> DistinctIds(sources[..i + 1])
    ensures sources[i].id in Ids(sources[..i]) ==>
              !DistinctIds(sources) && exists j :: 0 <= j < i && sources[j].id == sources[i].id
  {
    hide Utf8.Valid;
    var before, after := sources[..i], sources[..i + 1];
    assert after == before + [sources[i]];
    if sources[i].id in Ids(before) {
      IdOfPrefix(sources, i, sources[i].id);
    }
    forall id | id in Ids(after)
      ensures id in Ids(before) + {sources[i].id}
    {
      var j :| 0 <= j < |after| && after[j].id == id;
      assert j < i ==> before[j].id == id;
    }
    forall id | id in Ids(before)
      ensures id in Ids(after)
    {
      IdOfPrefix(sources, i, id);
      var j :| 0 <= j < i && sources[j].id == id;
      assert after[j].id == id;
    }
  }

  method ValidateSettings(proxyOk: Str -> bool, c: Settings) returns (r: Option<ConfigError>)
    ensures r.None? <==> ValidSettings(proxyOk, c)
    ensures r.Some? ==> Explains(proxyOk, r.value, c)
  {
    hide Utf8.Valid, Ids, DistinctIds;
    if c.sources == [] {
      return Some(NoSources);
    }
    if c.channelCapacity == 0 {
      return Some(ZeroCapacity);
    }
    if 10 in c.userAgent || 13 in c.userAgent {
      return Some(NewlineInUserAgent);
    }
    if c.reconnect.initialDelay == 0 {
      return Some(ZeroInitialDelay);
    }
    if c.reconnect.maxDelay < c.reconnect.initialDelay {
      return Some(MaxDelayBelowInitial);
    }
    if c.reconnect.offlineThreshold == 0 {
      return Some(ZeroOfflineThreshold);
    }
    if c.reconnect.offlineDelay == 0 {
      return Some(ZeroOfflineDelay);
    }
    if c.dedup.defaultWindow == 0 {
      return Some(ZeroDedupWindow);
    }
    if c.dedup.maxWindow < c.dedup.defaultWindow {
      return Some(MaxWindowBelowDefault);
    }
    var ids: set<Str> := {};
    NoSourcesYet(c.sources);
    for i := 0 to |c.sources|
      invariant ids == Ids(c.sources[..i])
      invariant forall k :: 0 <= k < i ==> ValidSource(proxyOk, c.sources[k])
      invariant DistinctIds(c.sources[..i])
    {
      var source := c.sources[i];
      OneMoreSource(c.sources, i);
      if source.id == [] {
        return Some(EmptyId);
      }
      if |source.id| >= U16_SIZE {
        return Some(IdTooLong(source.id));
      }
      if source.id in ids {
        return Some(DuplicateId(source.id));
      }
      ids := ids + {source.id};
      if source.proxy.Some? && !proxyOk(source.proxy.value) {
        return Some(BadProxy(source.id));
      }
    }
    assert c.sources[..|c.sources|] == c.sources;
    return None;
  }
}
