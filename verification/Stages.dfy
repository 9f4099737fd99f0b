/** The staged pipeline frame by frame: which frames of a block pass the filters, which of them are
    repeats, and which messages the others turn into. */
module Stages {
  import opened Bytes
  import opened Wrappers
  import opened Handlers
  import Dedup
  import M = Multiplex

  predicate Passes(lib: M.Library, cfg: ClientConfig, x: Timed) {
    PassesSource(cfg, x.frame) && PassesType(lib, cfg, x.frame)
  }

  function HashOf(lib: M.Library, x: Timed): Option<Data> {
    M.MetaOf(lib, x.frame).contentHash
  }

  predicate Hashes(lib: M.Library, cfg: ClientConfig, x: Timed) {
    Passes(lib, cfg, x) && HashOf(lib, x).Some?
  }

  /** The frames that come to the dedup stage with a content hash. */
  function Hashed(lib: M.Library, cfg: ClientConfig, xs: seq<Timed>): (hs: seq<nat>)
    ensures forall i :: 0 <= i < |hs| ==> hs[i] < |xs| && Hashes(lib, cfg, xs[hs[i]])
    ensures forall i, j :: 0 <= i < j < |hs| ==> hs[i] < hs[j]
    ensures forall k :: 0 <= k < |xs| && Hashes(lib, cfg, xs[k]) ==> k in hs
  {
    if xs == [] then []
    else
      var last := |xs| - 1;
      Hashed(lib, cfg, xs[..last]) + if Hashes(lib, cfg, xs[last]) then [last] else []
  }

  /** Frame `k` passes the filters and is not a repeat. */
  predicate Fresh(lib: M.Library, cfg: ClientConfig, xs: seq<Timed>, k: nat)
    requires k < |xs|
  {
    Passes(lib, cfg, xs[k]) && FreshFor(lib, CacheAfter(lib, cfg, xs[..k]), xs[k])
  }

  /** The frames that get through. */
  function Sent(lib: M.Library, cfg: ClientConfig, xs: seq<Timed>): seq<nat> {
    if xs == [] then []
    else
      var last := |xs| - 1;
      Sent(lib, cfg, xs[..last]) + if Fresh(lib, cfg, xs, last) then [last] else []
  }

  ghost predicate Lists(lib: M.Library, cfg: ClientConfig, xs: seq<Timed>, ks: seq<nat>) {
    && (forall i :: 0 <= i < |ks| ==> ks[i] < |xs| && Fresh(lib, cfg, xs, ks[i]))
    && (forall i, j :: 0 <= i < j < |ks| ==> ks[i] < ks[j])
    && (forall k :: 0 <= k < |xs| && Fresh(lib, cfg, xs, k) ==> k in ks)
  }

  lemma FreshIs(lib: M.Library, cfg: ClientConfig, xs: seq<Timed>, k: nat)
    requires k < |xs|
    ensures Fresh(lib, cfg, xs, k) <==> Passes(lib, cfg, xs[k]) && FreshFor(lib, CacheAfter(lib, cfg, xs[..k]), xs[k])
  {
  }

  lemma FreshInPrefix(lib: M.Library, cfg: ClientConfig, xs: seq<Timed>, n: nat, k: nat)
    requires k < n <= |xs|
    ensures Fresh(lib, cfg, xs[..n], k) <==> Fresh(lib, cfg, xs, k)
  {
    hide Passes, FreshFor, CacheAfter;
    assert xs[..n][..k] == xs[..k];
  }

  lemma {:induction false} SentIsListed(lib: M.Library, cfg: ClientConfig, xs: seq<Timed>)
    ensures Lists(lib, cfg, xs, Sent(lib, cfg, xs))
  {
    hide Fresh;
    if xs != [] {
      var last := |xs| - 1;
      SentIsListed(lib, cfg, xs[..last]);
      forall k | 0 <= k < last
        ensures Fresh(lib, cfg, xs[..last], k) <==> Fresh(lib, cfg, xs, k)
      {
        FreshInPrefix(lib, cfg, xs, last, k);
      }
    }
  }

  function Joined(groups: seq<seq<Message>>): seq<Message> {
    if groups == [] then [] else Joined(groups[..|groups| - 1]) + groups[|groups| - 1]
  }

  function GroupsAt(lib: M.Library, cfg: ClientConfig, xs: seq<Timed>, ks: seq<nat>): seq<seq<Message>>
    requires forall i :: 0 <= i < |ks| ==> ks[i] < |xs|
  {
    seq(|ks|, i requires 0 <= i < |ks| => Outputs(lib, cfg, xs[ks[i]].frame))
  }

  lemma JoinedSnoc(groups: seq<seq<Message>>, group: seq<Message>)
    ensures Joined(groups + [group]) == Joined(groups) + group
  {
    assert (groups + [group])[..|groups|] == groups;
  }

  lemma SentSnoc(lib: M.Library, cfg: ClientConfig, past: seq<Timed>, x: Timed)
    ensures Sent(lib, cfg, past + [x]) ==
            Sent(lib, cfg, past) + if Fresh(lib, cfg, past + [x], |past|) then [|past|] else []
    ensures Fresh(lib, cfg, past + [x], |past|) <==>
            Passes(lib, cfg, x) && FreshFor(lib, CacheAfter(lib, cfg, past), x)
  {
    hide Fresh;
    assert (past + [x])[..|past|] == past;
    assert Fresh(lib, cfg, past + [x], |past|) <==>
           Passes(lib, cfg, x) && FreshFor(lib, CacheAfter(lib, cfg, past), x) by {
      FreshIs(lib, cfg, past + [x], |past|);
    }
  }

  lemma NothingPutOut(lib: M.Library, cfg: ClientConfig)
    ensures Pipeline(lib, cfg, []) == [] == Joined(GroupsAt(lib, cfg, [], Sent(lib, cfg, [])))
  {
  }

  lemma PassesIs(lib: M.Library, cfg: ClientConfig, x: Timed)
    ensures Passes(lib, cfg, x) <==> PassesSource(cfg, x.frame) && PassesType(lib, cfg, x.frame)
  {
  }

  /** The pipeline puts out the messages of the frames that get through, and nothing else. */
  lemma {:induction false} PipelineIsJoined(lib: M.Library, cfg: ClientConfig, xs: seq<Timed>)
    ensures Lists(lib, cfg, xs, Sent(lib, cfg, xs))
    ensures Pipeline(lib, cfg, xs) == Joined(GroupsAt(lib, cfg, xs, Sent(lib, cfg, xs)))
  {
    hide Pipeline, Fresh, Passes, FreshFor, CacheAfter, Outputs, PassesSource, PassesType;
    SentIsListed(lib, cfg, xs);
    if xs == [] {
      NothingPutOut(lib, cfg);
    } else {
      var past, x := xs[..|xs| - 1], xs[|xs| - 1];
      PipelineIsJoined(lib, cfg, past);
      PipelineSnoc(lib, cfg, past, x);
      SentSnoc(lib, cfg, past, x);
      PassesIs(lib, cfg, x);
      assert xs == past + [x];
      var groups := GroupsAt(lib, cfg, past, Sent(lib, cfg, past));
      if Fresh(lib, cfg, xs, |past|) {
        JoinedSnoc(groups, Outputs(lib, cfg, x.frame));
        assert GroupsAt(lib, cfg, xs, Sent(lib, cfg, xs)) == groups + [Outputs(lib, cfg, x.frame)];
      } else {
        assert GroupsAt(lib, cfg, xs, Sent(lib, cfg, xs)) == groups;
      }
    }
  }

  // ----- Repeats -----

  function CallsAt(lib: M.Library, cfg: ClientConfig, xs: seq<Timed>): (calls: seq<Dedup.Call>)
    ensures |calls| == |Hashed(lib, cfg, xs)|
    ensures forall i :: 0 <= i < |calls| ==>
              var x := xs[Hashed(lib, cfg, xs)[i]]; calls[i] == Dedup.Call(HashOf(lib, x).value, x.now)
  {
    var hs := Hashed(lib, cfg, xs);
    seq(|hs|, i requires 0 <= i < |hs| => Dedup.Call(HashOf(lib, xs[hs[i]]).value, xs[hs[i]].now))
  }

  lemma HashedSnoc(lib: M.Library, cfg: ClientConfig, past: seq<Timed>, x: Timed)
    ensures Hashed(lib, cfg, past + [x]) ==
            Hashed(lib, cfg, past) + if Hashes(lib, cfg, x) then [|past|] else []
  {
    hide Hashes;
    assert (past + [x])[..|past|] == past;
  }

  lemma CallsAtSnoc(lib: M.Library, cfg: ClientConfig, past: seq<Timed>, x: Timed)
    ensures CallsAt(lib, cfg, past + [x]) ==
            CallsAt(lib, cfg, past) + if Hashes(lib, cfg, x) then [Dedup.Call(HashOf(lib, x).value, x.now)] else []
  {
    hide Hashed, CallsAt, M.MetaOf, PassesSource, PassesType;
    HashedSnoc(lib, cfg, past, x);
    var hs, more := Hashed(lib, cfg, past), past + [x];
    forall i | 0 <= i < |hs|
      ensures more[Hashed(lib, cfg, more)[i]] == past[hs[i]]
    {
    }
  }

  lemma NothingFiltered(lib: M.Library, cfg: ClientConfig)
    ensures HashCalls(lib, Filtered(lib, cfg, [])) == [] == CallsAt(lib, cfg, [])
  {
  }

  /** The dedup cache is asked about those frames, in order, with their hashes and times. */
  lemma {:induction false} CallsAreHashed(lib: M.Library, cfg: ClientConfig, xs: seq<Timed>)
    ensures HashCalls(lib, Filtered(lib, cfg, xs)) == CallsAt(lib, cfg, xs)
  {
    hide M.MetaOf, PassesSource, PassesType, Filtered, Emit, ByContent, HashCalls, CallsAt, Hashed;
    if xs == [] {
      NothingFiltered(lib, cfg);
    } else {
      var past, x := xs[..|xs| - 1], xs[|xs| - 1];
      CallsAreHashed(lib, cfg, past);
      assert xs == past + [x];
      FilteredSnoc(lib, cfg, past, x);
      StagesSnoc(lib, cfg, Filtered(lib, cfg, past), x);
      CallsAtSnoc(lib, cfg, past, x);
      assert CallsAt(lib, cfg, past) + [] == CallsAt(lib, cfg, past);
      assert Filtered(lib, cfg, past) + [] == Filtered(lib, cfg, past);
    }
  }

  function HistoryAt(lib: M.Library, cfg: ClientConfig, xs: seq<Timed>): Dedup.History
    requires cfg.window.Some?
  {
    Dedup.History(cfg.window.value, cfg.openedAt, CallsAt(lib, cfg, xs))
  }

  lemma {:induction false} HashedPrefix(lib: M.Library, cfg: ClientConfig, xs: seq<Timed>, i: nat)
    requires i < |Hashed(lib, cfg, xs)|
    ensures var calls := Hashed(lib, cfg, xs);
            calls[i] < |xs| && Hashed(lib, cfg, xs[..calls[i]]) == calls[..i]
  {
    hide Hashed, Hashes;
    if xs != [] {
      var past, last := xs[..|xs| - 1], xs[|xs| - 1];
      assert xs == past + [last];
      HashedSnoc(lib, cfg, past, last);
      var k := Hashed(lib, cfg, xs)[i];
      if i < |Hashed(lib, cfg, past)| {
        HashedPrefix(lib, cfg, past, i);
        assert past[..k] == xs[..k];
      } else {
        assert xs[..k] == past;
      }
    }
  }

  lemma CacheIs(lib: M.Library, cfg: ClientConfig, xs: seq<Timed>)
    requires cfg.window.Some?
    ensures CacheAfter(lib, cfg, xs) == Some(Dedup.StateAt(HistoryAt(lib, cfg, xs), |Hashed(lib, cfg, xs)|))
  {
    hide Filtered, HashCalls, CallsAt, Hashed, Dedup.StateAt;
    CallsAreHashed(lib, cfg, xs);
  }

  /** The cache decides about the i-th hashed frame as the history says. */
  lemma FreshIffAdmitted(lib: M.Library, cfg: ClientConfig, xs: seq<Timed>, i: nat)
    requires cfg.window.Some? && i < |Hashed(lib, cfg, xs)|
    ensures Fresh(lib, cfg, xs, Hashed(lib, cfg, xs)[i]) <==> Dedup.Admitted(HistoryAt(lib, cfg, xs), i)
  {
    hide M.MetaOf, Filtered, HashCalls, CallsAt, Hashed, CacheAfter, PassesSource, PassesType, Dedup.StateAt, Dedup.Gen,
      Dedup.Start;
    var k := Hashed(lib, cfg, xs)[i];
    var h, past := HistoryAt(lib, cfg, xs), HistoryAt(lib, cfg, xs[..k]);
    HashedPrefix(lib, cfg, xs, i);
    CacheIs(lib, cfg, xs[..k]);
    assert past.calls == h.calls[..i];
    assert h == past.(calls := past.calls + h.calls[i..]);
    Dedup.PrefixStable(past, h.calls[i..], i);
  }

  lemma UnhashedIsFresh(lib: M.Library, cfg: ClientConfig, xs: seq<Timed>, k: nat)
    requires k < |xs| && Passes(lib, cfg, xs[k])
    ensures cfg.window.None? || HashOf(lib, xs[k]).None? ==> Fresh(lib, cfg, xs, k)
  {
  }

  lemma HashedAt(lib: M.Library, cfg: ClientConfig, xs: seq<Timed>, k: nat) returns (i: nat)
    requires k < |xs| && Passes(lib, cfg, xs[k]) && HashOf(lib, xs[k]).Some?
    ensures i < |Hashed(lib, cfg, xs)| && Hashed(lib, cfg, xs)[i] == k
  {
    hide Hashed, PassesSource, PassesType, M.MetaOf;
    i :| 0 <= i < |Hashed(lib, cfg, xs)| && Hashed(lib, cfg, xs)[i] == k;
  }

  lemma FreshPasses(lib: M.Library, cfg: ClientConfig, xs: seq<Timed>, k: nat)
    requires k < |xs| && Fresh(lib, cfg, xs, k)
    ensures Passes(lib, cfg, xs[k])
  {
  }

  /** Nothing is dropped but repeats: an earlier frame with the same hash has got through. */
  lemma TwinGotThrough(lib: M.Library, cfg: ClientConfig, xs: seq<Timed>, k: nat) returns (twin: nat)
    requires k < |xs| && Passes(lib, cfg, xs[k]) && !Fresh(lib, cfg, xs, k)
    ensures twin < k && Fresh(lib, cfg, xs, twin) && HashOf(lib, xs[twin]) == HashOf(lib, xs[k]) != None
  {
    UnhashedIsFresh(lib, cfg, xs, k);
    hide M.MetaOf, Hashed, CallsAt, Fresh, Dedup.StateAt, Dedup.Gen, Dedup.Start, Dedup.Admitted, Dedup.GenOf;
    var i := HashedAt(lib, cfg, xs, k);
    var h := HistoryAt(lib, cfg, xs);
    FreshIffAdmitted(lib, cfg, xs, i);
    Dedup.SuppressedIffRecent(h, i);
    var j :| 0 <= j < i && h.calls[j].key == h.calls[i].key && Dedup.Admitted(h, j);
    FreshIffAdmitted(lib, cfg, xs, j);
    twin := Hashed(lib, cfg, xs)[j];
  }

  ghost predicate InTime(cfg: ClientConfig, xs: seq<Timed>) {
    && (forall k :: 0 <= k < |xs| ==> cfg.openedAt <= xs[k].now)
    && (forall k, l :: 0 <= k < l < |xs| ==> xs[k].now <= xs[l].now)
  }

  /** Two frames with one hash get through only if they are more than a window apart. */
  lemma RepeatsAreApart(lib: M.Library, cfg: ClientConfig, xs: seq<Timed>, k: nat, l: nat)
    requires cfg.window.Some? && cfg.window.value > 0 && InTime(cfg, xs) && k < l < |xs|
    requires Fresh(lib, cfg, xs, k) && Fresh(lib, cfg, xs, l) && HashOf(lib, xs[k]) == HashOf(lib, xs[l]) != None
    ensures xs[l].now > xs[k].now + cfg.window.value
  {
    hide M.MetaOf, Hashed, CallsAt, Fresh, Dedup.StateAt, Dedup.Gen, Dedup.Start, Dedup.Admitted, Dedup.GenOf;
    var h := HistoryAt(lib, cfg, xs);
    FreshPasses(lib, cfg, xs, k);
    FreshPasses(lib, cfg, xs, l);
    var i := HashedAt(lib, cfg, xs, k);
    var j := HashedAt(lib, cfg, xs, l);
    FreshIffAdmitted(lib, cfg, xs, i);
    FreshIffAdmitted(lib, cfg, xs, j);
    Dedup.AdmissionsAreSparse(h, h.calls[i].key, [i, j]);
  }
}
