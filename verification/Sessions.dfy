/** What a source's sessions publish, message by message: the texts and binaries of each session up to
    its end, and the sessions up to the cancellation of the task. */
module Sessions {
  import Utf8
  import opened Multiplex
  import opened Publishing
  import opened Upstream

  predicate Carries(m: Incoming) {
    m.Text? || m.Binary?
  }

  /** Session `messages` is over at `n`, and not before. */
  predicate EndsBefore(messages: seq<Incoming>, n: nat) {
    && n <= |messages|
    && (forall j :: 0 <= j < n ==>
          Carries(messages[j]) || messages[j].Pong? || messages[j].Raw? || messages[j] == Ping(true))
    && (n < |messages| ==>
          var m := messages[n]; m.Close? || m.Broken? || m.End? || m.Cancelled? || m == Ping(false))
  }

  predicate IsArrivalOf(a: Arrival, m: Incoming) {
    match m
    case Text(text, atMs) => a == Arrival(RawFrame.Text(text), atMs)
    case Binary(data, atMs) => a == Arrival(RawFrame.Binary(data), atMs)
    case _ => false
  }

  /** How many of `messages` carry something. */
  function Count(messages: seq<Incoming>): nat {
    if messages == [] then 0
    else Count(messages[..|messages| - 1]) + if Carries(messages[|messages| - 1]) then 1 else 0
  }

  /** `arrivals` are the texts and binaries of `messages`, each once and in order. */
  ghost predicate AreThoseOf(arrivals: seq<Arrival>, messages: seq<Incoming>) {
    && |arrivals| == Count(messages)
    && (forall j :: 0 <= j < |messages| && Carries(messages[j]) ==>
          Count(messages[..j]) < |arrivals| && IsArrivalOf(arrivals[Count(messages[..j])], messages[j]))
  }

  lemma ArrivalOfOne(m: Incoming)
    ensures |ArrivalOf(m)| == (if Carries(m) then 1 else 0) && (Carries(m) ==> IsArrivalOf(ArrivalOf(m)[0], m))
  {
  }

  lemma OneMoreOfThose(arrivals: seq<Arrival>, messages: seq<Incoming>, m: Incoming)
    requires AreThoseOf(arrivals, messages)
    ensures AreThoseOf(arrivals + ArrivalOf(m), messages + [m])
  {
    hide Utf8.Valid, IsArrivalOf;
    ArrivalOfOne(m);
    var more, after := messages + [m], arrivals + ArrivalOf(m);
    assert more[..|messages|] == messages;
    forall j | 0 <= j < |more| && Carries(more[j])
      ensures Count(more[..j]) < |after| && IsArrivalOf(after[Count(more[..j])], more[j])
    {
      if j < |messages| {
        assert more[..j] == messages[..j];
      }
    }
  }

  lemma NoneOfThose()
    ensures AreThoseOf([], [])
  {
  }

  lemma {:induction false} PublishedUpTo(messages: seq<Incoming>, i: nat) returns (published: seq<Arrival>)
    requires i <= |messages| && forall j :: 0 <= j < i ==> Continues(messages[j])
    ensures AreThoseOf(published, messages[..i]) && Published(messages) == published + Published(messages[i..])
  {
    hide Utf8.Valid, Published, ArrivalOf, AreThoseOf;
    if i == 0 {
      published := [];
      NoneOfThose();
      assert messages[..0] == [] && messages[0..] == messages;
      assert published + Published(messages) == Published(messages);
    } else {
      var before := PublishedUpTo(messages, i - 1);
      PublishedSoFar(messages, i - 1, before);
      published := before + ArrivalOf(messages[i - 1]);
      OneMoreOfThose(before, messages[..i - 1], messages[i - 1]);
      assert messages[..i] == messages[..i - 1] + [messages[i - 1]];
    }
  }

  /** How long a session goes on. */
  function SessionLength(messages: seq<Incoming>): (n: nat)
    ensures EndsBefore(messages, n)
  {
    if messages == [] || !Continues(messages[0]) then 0 else SessionLength(messages[1..]) + 1
  }

  /** A session publishes its texts and binaries before its end, each once and in order. */
  lemma PublishedExactly(messages: seq<Incoming>) returns (n: nat)
    ensures EndsBefore(messages, n) && AreThoseOf(Published(messages), messages[..n])
    ensures EndsBadly(messages) <==> n < |messages| && (messages[n].Broken? || messages[n] == Ping(false))
  {
    hide Utf8.Valid, AreThoseOf, EndsBadly;
    EndsAt(messages, SessionLength(messages));
    n := SessionLength(messages);
    var published := PublishedUpTo(messages, n);
    assert Published(messages[n..]) == [];
    assert published + [] == published;
  }

  // ----- Over all rounds -----

  predicate Cancelled(r: Round) {
    r.cancelledBefore || (!r.disabled && (r.attempt.Interrupted? || r.cancelledAfter || r.cancelledAsleep))
  }

  function Own(r: Round): seq<Arrival> {
    if !r.cancelledBefore && !r.disabled && r.attempt.Session? then Published(r.attempt.messages) else []
  }

  /** What the sessions of `script` publish, taken together. */
  function Together(script: seq<Round>): seq<Arrival> {
    if script == [] then [] else Together(script[..|script| - 1]) + Own(script[|script| - 1])
  }

  lemma TogetherSnoc(script: seq<Round>, r: Round)
    ensures Together(script + [r]) == Together(script) + Own(r)
  {
    assert (script + [r])[..|script|] == script;
  }

  lemma TogetherOne(r: Round)
    ensures Together([]) == [] && Together([r]) == Own(r)
  {
    assert [r][..0] == [];
  }

  lemma {:induction false} TogetherCons(r: Round, script: seq<Round>)
    ensures Together([r] + script) == Own(r) + Together(script)
  {
    hide Together, Own, Utf8.Valid;
    TogetherOne(r);
    if script == [] {
      assert [r] + script == [r];
    } else {
      var past, last := script[..|script| - 1], script[|script| - 1];
      TogetherCons(r, past);
      assert [r] + script == [r] + past + [last] && script == past + [last];
      TogetherSnoc([r] + past, last);
      TogetherSnoc(past, last);
    }
  }

  lemma NothingTogether()
    ensures Together([]) == [] == AllPublished([])
  {
  }

  lemma AllPublishedCons(script: seq<Round>)
    requires script != []
    ensures AllPublished(script) == Own(script[0]) + if Cancelled(script[0]) then [] else AllPublished(script[1..])
  {
  }

  /** A task publishes what its sessions publish, up to and including the round in which it is
      cancelled. */
  lemma {:induction false} AllPublishedExactly(script: seq<Round>) returns (n: nat)
    ensures n <= |script| && forall j :: 0 <= j < n - 1 ==> !Cancelled(script[j])
    ensures n < |script| ==> n > 0 && Cancelled(script[n - 1])
    ensures AllPublished(script) == Together(script[..n])
  {
    hide AllPublished, Together, Own, Utf8.Valid, Cancelled;
    if script == [] {
      n := 0;
      NothingTogether();
      assert script[..0] == [];
    } else {
      AllPublishedCons(script);
      TogetherOne(script[0]);
      if Cancelled(script[0]) {
        n := 1;
        assert script[..1] == [script[0]];
        assert Own(script[0]) + [] == Own(script[0]);
      } else {
        var rest := AllPublishedExactly(script[1..]);
        n := rest + 1;
        TogetherCons(script[0], script[1..][..rest]);
        assert script[..n] == [script[0]] + script[1..][..rest];
      }
    }
  }
}
