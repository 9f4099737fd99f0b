/** Sequence numbers: each is given out once, and published once, whatever tasks overlap. */
module Sequencing {
  import opened Bytes
  import opened Relay
  import opened Wrappers
  import M = Multiplex
  import H = Handlers

  predicate Holds(t: Task, r: nat, k: nat) {
    t.rt == r && t.publish.Publishing? && t.publish.done >= NUMBERED && t.publish.ticket == k
  }

  predicate Carries(e: Entry, r: nat, k: nat) {
    e.rt == r && e.ticket == k
  }

  ghost predicate Logged(s: State, r: nat, k: nat) {
    exists i :: 0 <= i < |s.log| && Carries(s.log[i], r, k)
  }

  ghost predicate Held(s: State, r: nat, k: nat) {
    exists t :: 0 <= t < |s.tasks| && Holds(s.tasks[t], r, k)
  }

  /** Each ticket issued by a runtime is in exactly one place: one entry of the multiplex log
      or one publish still in flight. */
  ghost predicate TicketsOnce(s: State) {
    && (forall i: nat, r: nat, k: nat :: i < |s.log| && r < |s.runtimes| && Carries(s.log[i], r, k) ==>
          k < s.runtimes[r].issued)
    && (forall t: nat, r: nat, k: nat :: t < |s.tasks| && r < |s.runtimes| && Holds(s.tasks[t], r, k) ==>
          k < s.runtimes[r].issued)
    && (forall i: nat, j: nat, r: nat, k: nat :: i < j < |s.log| && Carries(s.log[i], r, k) ==>
          !Carries(s.log[j], r, k))
    && (forall t: nat, u: nat, r: nat, k: nat :: t < u < |s.tasks| && Holds(s.tasks[t], r, k) ==>
          !Holds(s.tasks[u], r, k))
    && (forall i: nat, t: nat, r: nat, k: nat :: i < |s.log| && t < |s.tasks| && Holds(s.tasks[t], r, k) ==>
          !Carries(s.log[i], r, k))
    && (forall r: nat, k: nat :: r < |s.runtimes| && k < s.runtimes[r].issued ==> Logged(s, r, k) || Held(s, r, k))
  }

  /** A publish that keeps its ticket, or the lack of one, leaves tickets where they are. */
  lemma TicketsKept(s: State, s': State, t: nat, task: Task)
    requires TicketsOnce(s) && s'.log == s.log && |s'.runtimes| == |s.runtimes| && t < |s.tasks|
    requires forall r :: 0 <= r < |s.runtimes| ==> s'.runtimes[r].issued == s.runtimes[r].issued
    requires s'.tasks == s.tasks[t := task]
    requires forall r: nat, k: nat :: Holds(task, r, k) <==> Holds(s.tasks[t], r, k)
    ensures TicketsOnce(s')
  {
    assert forall u: nat, r: nat, k: nat :: u < |s.tasks| ==> Holds(s'.tasks[u], r, k) == Holds(s.tasks[u], r, k);
    forall r: nat, k: nat
      ensures Held(s', r, k) == Held(s, r, k) && Logged(s', r, k) == Logged(s, r, k)
    {
    }
  }

  lemma TicketIssued(s: State, t: nat)
    requires TicketsOnce(s) && Enabled(s, Proceed(t)) && s.tasks[t].publish.done == 4
    ensures TicketsOnce(Effect(s, t))
  {
    var s' := Effect(s, t);
    var r := s.tasks[t].rt;
    var k := s.runtimes[r].issued;
    assert Holds(s'.tasks[t], r, k);
    forall r': nat, k': nat | r' < |s'.runtimes| && k' < s'.runtimes[r'].issued
      ensures Logged(s', r', k') || Held(s', r', k')
    {
      if r' != r || k' != k {
        if Held(s, r', k') {
          var u :| 0 <= u < |s.tasks| && Holds(s.tasks[u], r', k');
          assert Holds(s'.tasks[u], r', k');
        } else {
          assert Logged(s, r', k');
        }
      }
    }
  }

  lemma TicketLogged(s: State, t: nat)
    requires TicketsOnce(s) && Enabled(s, Proceed(t)) && s.tasks[t].publish.done == RAW_SENT
    ensures TicketsOnce(Effect(s, t))
  {
    var s' := Effect(s, t);
    var r, k := s.tasks[t].rt, s.tasks[t].publish.ticket;
    assert Holds(s.tasks[t], r, k) && Carries(s'.log[|s.log|], r, k);
    forall r': nat, k': nat | r' < |s'.runtimes| && k' < s'.runtimes[r'].issued
      ensures Logged(s', r', k') || Held(s', r', k')
    {
      if r' != r || k' != k {
        if Held(s, r', k') {
          var u :| 0 <= u < |s.tasks| && Holds(s.tasks[u], r', k');
          assert Holds(s'.tasks[u], r', k');
        } else {
          var i :| 0 <= i < |s.log| && Carries(s.log[i], r', k');
          assert Carries(s'.log[i], r', k');
        }
      }
    }
  }

  /** New runtimes and new tasks bring no tickets with them. */
  lemma TicketsGrow(s: State, s': State)
    requires Shape(s) && TicketsOnce(s) && s'.log == s.log
    requires s.runtimes <= s'.runtimes && s.tasks <= s'.tasks
    requires forall r :: |s.runtimes| <= r < |s'.runtimes| ==> s'.runtimes[r].issued == 0
    requires forall t :: |s.tasks| <= t < |s'.tasks| ==> s'.tasks[t].publish.Idle?
    ensures TicketsOnce(s')
  {
    forall r: nat, k: nat
      ensures Logged(s, r, k) ==> Logged(s', r, k)
      ensures Held(s, r, k) ==> Held(s', r, k)
    {
      if Held(s, r, k) {
        var u :| 0 <= u < |s.tasks| && Holds(s.tasks[u], r, k);
        assert Holds(s'.tasks[u], r, k);
      }
    }
  }

  lemma TicketsProceed(s: State, t: nat)
    requires Shape(s) && TicketsOnce(s) && Enabled(s, Proceed(t))
    ensures TicketsOnce(Effect(s, t))
  {
    if s.tasks[t].publish.done == 4 {
      TicketIssued(s, t);
    } else if s.tasks[t].publish.done == RAW_SENT {
      TicketLogged(s, t);
    } else {
      TicketsKept(s, Effect(s, t), t, Effect(s, t).tasks[t]);
    }
  }

  lemma TicketsStep(s: State, a: Action)
    requires Shape(s) && TicketsOnce(s) && Enabled(s, a)
    ensures TicketsOnce(Apply(s, a))
  {
    hide H.Replay, H.RawReplay, TicketsOnce;
    var s' := Apply(s, a);
    match a
    case Proceed(t) => TicketsProceed(s, t);
    case Arrive(t, _, _) => TicketsKept(s, s', t, s'.tasks[t]);
    case _ => TicketsGrow(s, s');
  }

  lemma {:induction false} AlwaysTickets(s: State, acts: seq<Action>)
    requires Init(s) && IsRun(s, acts)
    ensures TicketsOnce(Exec(s, acts))
  {
    if acts != [] {
      var past := acts[..|acts| - 1];
      AlwaysTickets(s, past);
      AlwaysShape(s, past);
      TicketsStep(Exec(s, past), acts[|acts| - 1]);
    }
  }

  /** Once no publish is in flight, the multiplex log holds for each runtime the sequence
      numbers 0 to n - 1, each in exactly one entry, however its tasks overlapped; and the
      framing of the entry's envelope yields the number (modulo 2^64). */
  lemma SequenceNumbersAreExact(s: State, acts: seq<Action>, r: nat)
    requires Init(s) && IsRun(s, acts) && Quiescent(Exec(s, acts)) && r < |Exec(s, acts).runtimes|
    ensures var s' := Exec(s, acts);
            && (forall k: nat :: Logged(s', r, k) <==> k < s'.runtimes[r].issued)
            && (forall i: nat, j: nat, k: nat :: i < j < |s'.log| && Carries(s'.log[i], r, k) ==>
                  !Carries(s'.log[j], r, k))
            && (forall i :: 0 <= i < |s'.log| && s'.log[i].rt == r ==>
                  M.StrictDecode(Envelope(s'.log[i])).Some?
                  && M.StrictDecode(Envelope(s'.log[i])).value.source == s'.runtimes[r].id
                  && M.StrictDecode(Envelope(s'.log[i])).value.sequence == s'.log[i].ticket % U64_SIZE)
  {
    AlwaysTickets(s, acts);
    AlwaysShape(s, acts);
    var s' := Exec(s, acts);
    hide Exec, M.StrictDecode, M.EncodeFrame;
    forall k: nat
      ensures Logged(s', r, k) <==> k < s'.runtimes[r].issued
    {
      if k < s'.runtimes[r].issued {
        assert !Held(s', r, k);
      }
    }
    forall i | 0 <= i < |s'.log| && s'.log[i].rt == r
      ensures M.StrictDecode(Envelope(s'.log[i])) ==
              Some(M.PublishedFields(s'.log[i].id, s'.log[i].ticket % U64_SIZE, s'.log[i].timestampMs, s'.log[i].frame))
    {
      var e := s'.log[i];
      M.StrictRoundTrip(M.PublishedFields(e.id, e.ticket % U64_SIZE, e.timestampMs, e.frame));
    }
  }

  // ----- Publishes that do not overlap -----

  /** The entries of the multiplex log that runtime `r` published. */
  function RuntimeLog(log: seq<Entry>, r: nat): seq<Entry> {
    if log == [] then []
    else RuntimeLog(log[..|log| - 1], r) + if log[|log| - 1].rt == r then [log[|log| - 1]] else []
  }

  lemma RuntimeLogSnoc(log: seq<Entry>, e: Entry, r: nat)
    ensures RuntimeLog(log + [e], r) == RuntimeLog(log, r) + if e.rt == r then [e] else []
  {
    assert (log + [e])[..|log|] == log;
  }

  lemma {:induction false} RuntimeLogEmpty(log: seq<Entry>, r: nat)
    requires forall i :: 0 <= i < |log| ==> log[i].rt != r
    ensures RuntimeLog(log, r) == []
  {
    if log != [] {
      RuntimeLogEmpty(log[..|log| - 1], r);
    }
  }

  predicate Busy(t: Task, r: nat) {
    t.rt == r && t.publish.Publishing?
  }

  ghost predicate Alone(s: State, r: nat) {
    forall t, u :: 0 <= t < u < |s.tasks| && Busy(s.tasks[t], r) ==> !Busy(s.tasks[u], r)
  }

  /** At no point of the run are two publishes of runtime `r` in flight together. */
  ghost predicate SerialRun(s: State, acts: seq<Action>, r: nat)
    requires IsRun(s, acts)
  {
    Alone(Exec(s, acts), r) && (acts != [] ==> SerialRun(s, acts[..|acts| - 1], r))
  }

  /** `published` entries of `r` are in the log, in step with its raw channel, and `p` is what
      its one busy task is doing. */
  predicate InStep(rt: Runtime, published: nat, p: Publish) {
    if p.Idle? || p.done < NUMBERED then published == rt.issued == |rt.raw|
    else if p.done == NUMBERED then p.ticket == published == |rt.raw| && rt.issued == published + 1
    else p.ticket == published && rt.issued == published + 1 == |rt.raw| && rt.raw[published] == p.frame
  }

  ghost predicate Ordered(s: State, r: nat)
    requires r < |s.runtimes|
  {
    var es, rt := RuntimeLog(s.log, r), s.runtimes[r];
    && |es| <= |rt.raw|
    && (forall i :: 0 <= i < |es| ==> es[i].ticket == i && es[i].frame == rt.raw[i])
    && (forall t :: 0 <= t < |s.tasks| && Busy(s.tasks[t], r) ==> InStep(rt, |es|, s.tasks[t].publish))
    && ((forall t :: 0 <= t < |s.tasks| ==> !Busy(s.tasks[t], r)) ==> InStep(rt, |es|, Idle))
  }

  lemma EffectFrame(s: State, t: nat, r: nat)
    requires Enabled(s, Proceed(t)) && r < |s.runtimes| && s.tasks[t].rt != r
    ensures var s' := Effect(s, t);
            && |s'.tasks| == |s.tasks| && s'.tasks[t].rt == s.tasks[t].rt
            && (forall u :: 0 <= u < |s.tasks| && u != t ==> s'.tasks[u] == s.tasks[u])
            && |s'.runtimes| == |s.runtimes| && s'.runtimes[r] == s.runtimes[r]
            && (s'.log == s.log || exists e: Entry :: e.rt != r && s'.log == s.log + [e])
  {
  }

  /** Effects of other runtimes' publishes, and entries they log, do not concern `r`. */
  lemma OrderedForeign(s: State, t: nat, r: nat)
    requires Shape(s) && Enabled(s, Proceed(t)) && r < |s.runtimes| && Ordered(s, r) && s.tasks[t].rt != r
    ensures Ordered(Effect(s, t), r)
  {
    var s' := Effect(s, t);
    EffectFrame(s, t, r);
    if s'.log != s.log {
      RuntimeLogSnoc(s.log, s'.log[|s.log|], r);
      assert RuntimeLog(s.log, r) + [] == RuntimeLog(s.log, r);
    }
    assert RuntimeLog(s'.log, r) == RuntimeLog(s.log, r);
    hide RuntimeLog, Effect, InStep;
    assert !Busy(s.tasks[t], r) && !Busy(s'.tasks[t], r);
    assert forall u :: 0 <= u < |s.tasks| && u != t ==> s'.tasks[u] == s.tasks[u];
  }

  lemma OrderedOwn(s: State, t: nat, r: nat)
    requires Shape(s) && Enabled(s, Proceed(t)) && r < |s.runtimes| && Ordered(s, r) && Alone(s, r)
    requires s.tasks[t].rt == r && s.tasks[t].publish.done < RAW_SENT
    ensures Ordered(Effect(s, t), r)
  {
    hide RuntimeLog;
    var s' := Effect(s, t);
    assert Busy(s.tasks[t], r) && Busy(s'.tasks[t], r);
    assert forall u :: 0 <= u < |s.tasks| && u != t ==> s'.tasks[u] == s.tasks[u] && !Busy(s.tasks[u], r);
    assert InStep(s'.runtimes[r], |RuntimeLog(s.log, r)|, s'.tasks[t].publish);
  }

  lemma OrderedLogged(s: State, t: nat, r: nat)
    requires Shape(s) && Enabled(s, Proceed(t)) && r < |s.runtimes| && Ordered(s, r) && Alone(s, r)
    requires s.tasks[t].rt == r && s.tasks[t].publish.done == RAW_SENT
    ensures Ordered(Effect(s, t), r)
  {
    var s' := Effect(s, t);
    RuntimeLogSnoc(s.log, s'.log[|s.log|], r);
    hide RuntimeLog;
    assert Busy(s.tasks[t], r) && !Busy(s'.tasks[t], r);
    assert forall u :: 0 <= u < |s.tasks| && u != t ==> s'.tasks[u] == s.tasks[u] && !Busy(s.tasks[u], r);
    assert InStep(s.runtimes[r], |RuntimeLog(s.log, r)|, s.tasks[t].publish);
  }

  lemma OrderedProceed(s: State, t: nat, r: nat)
    requires Shape(s) && Enabled(s, Proceed(t)) && r < |s.runtimes| && Ordered(s, r) && Alone(s, r)
    ensures Ordered(Effect(s, t), r)
  {
    hide Ordered, Alone;
    if s.tasks[t].rt != r {
      OrderedForeign(s, t, r);
    } else if s.tasks[t].publish.done == RAW_SENT {
      OrderedLogged(s, t, r);
    } else {
      OrderedOwn(s, t, r);
    }
  }

  lemma OrderedArrive(s: State, a: Action, r: nat)
    requires Shape(s) && a.Arrive? && Enabled(s, a) && r < |s.runtimes| && Ordered(s, r)
    requires Alone(Apply(s, a), r)
    ensures Ordered(Apply(s, a), r)
  {
    hide RuntimeLog;
    var s', t := Apply(s, a), a.task;
    assert forall u :: 0 <= u < |s.tasks| && u != t ==> s'.tasks[u] == s.tasks[u];
    if s.tasks[t].rt == r {
      assert Busy(s'.tasks[t], r) && !Busy(s.tasks[t], r);
    } else {
      assert Busy(s'.tasks[t], r) == Busy(s.tasks[t], r);
    }
  }

  lemma OrderedOther(s: State, a: Action, r: nat)
    requires Shape(s) && Enabled(s, a) && !a.Arrive? && !a.Proceed?
    requires r < |s.runtimes| ==> Ordered(s, r)
    ensures r < |Apply(s, a).runtimes| ==> Ordered(Apply(s, a), r)
  {
    hide H.Replay, H.RawReplay, RuntimeLog;
    var s' := Apply(s, a);
    assert s'.log == s.log && s.tasks <= s'.tasks && s.runtimes <= s'.runtimes;
    if r < |s.runtimes| {
      assert forall u :: 0 <= u < |s.tasks| ==> s'.tasks[u] == s.tasks[u];
    } else {
      RuntimeLogEmpty(s.log, r);
    }
  }

  lemma {:induction false} AlwaysOrdered(s: State, acts: seq<Action>, r: nat)
    requires Init(s) && IsRun(s, acts) && SerialRun(s, acts, r)
    ensures r < |Exec(s, acts).runtimes| ==> Ordered(Exec(s, acts), r)
  {
    if acts != [] {
      var past, a := acts[..|acts| - 1], acts[|acts| - 1];
      AlwaysOrdered(s, past, r);
      AlwaysShape(s, past);
      var before := Exec(s, past);
      hide Ordered, Alone;
      if a.Proceed? && r < |before.runtimes| {
        OrderedProceed(before, a.task, r);
      } else if a.Arrive? && r < |before.runtimes| {
        OrderedArrive(before, a, r);
      } else if !a.Proceed? && !a.Arrive? {
        OrderedOther(before, a, r);
      }
    }
  }

  /** When publishes of a runtime do not overlap, the multiplex log carries its messages with
      the sequence numbers 0, 1, 2, ... in that order, and they are the messages of its raw
      channel, at most the last of which is still on its way to the multiplex log. */
  lemma SerialPublishesAreOrdered(s: State, acts: seq<Action>, r: nat)
    requires Init(s) && IsRun(s, acts) && SerialRun(s, acts, r) && r < |Exec(s, acts).runtimes|
    ensures var s' := Exec(s, acts);
            var es, raw := RuntimeLog(s'.log, r), s'.runtimes[r].raw;
            && |es| <= |raw| <= |es| + 1
            && (forall i :: 0 <= i < |es| ==> es[i].ticket == i && es[i].frame == raw[i])
            && (Quiescent(s') ==> |es| == |raw| == s'.runtimes[r].issued)
  {
    AlwaysOrdered(s, acts, r);
    AlwaysShape(s, acts);
    var s' := Exec(s, acts);
    hide Exec, RuntimeLog;
    if exists t :: 0 <= t < |s'.tasks| && Busy(s'.tasks[t], r) {
      var t :| 0 <= t < |s'.tasks| && Busy(s'.tasks[t], r);
      assert InStep(s'.runtimes[r], |RuntimeLog(s'.log, r)|, s'.tasks[t].publish);
    }
  }
}
