/** How the delays between connection attempts grow, and when a source counts as offline. */
module Backoff {
  import opened Wrappers
  import opened Config
  import opened Upstream

  /** All looks at the policy find `p`. */
  predicate Fixed(p: ReconnectPolicy, script: seq<Round>) {
    forall r <- script :: r.policy == p && r.policyAfter == p && (r.attempt.Session? ==> r.attempt.policy == p)
  }

  predicate WithinPolicy(most: nat, p: ReconnectPolicy) {
    ValidReconnect(p) && p.maxDelay <= most
  }

  /** Every policy found is valid and caps the delay at `most`. */
  predicate Within(most: nat, script: seq<Round>) {
    forall r <- script ::
      WithinPolicy(most, r.policyAfter) && (r.attempt.Session? ==> WithinPolicy(most, r.attempt.policy))
  }

  /** The waits begun since the last connection, or since the start. */
  function Outage(log: seq<Event>): (o: seq<Event>)
    ensures forall i :: 0 <= i < |o| ==> o[i].Wait?
  {
    if log == [] || log[|log| - 1].Opened? then []
    else Outage(log[..|log| - 1]) + [log[|log| - 1]]
  }

  lemma OutageSnoc(log: seq<Event>, e: Event)
    ensures Outage(log + [e]) == if e.Opened? then [] else Outage(log) + [e]
  {
    assert (log + [e])[..|log|] == log;
  }

  predicate Doubles(w: Event) {
    w.Wait? && w.duration == w.delay
  }

  function Doublings(o: seq<Event>): nat {
    if o == [] then 0
    else Doublings(o[..|o| - 1]) + if Doubles(o[|o| - 1]) then 1 else 0
  }

  function Elapsed(o: seq<Event>): nat {
    if o == [] then 0
    else Elapsed(o[..|o| - 1]) + if o[|o| - 1].Wait? then o[|o| - 1].duration else 0
  }

  lemma CountsSnoc(o: seq<Event>, w: Event)
    requires w.Wait?
    ensures Doublings(o + [w]) == Doublings(o) + if Doubles(w) then 1 else 0
    ensures Elapsed(o + [w]) == Elapsed(o) + w.duration
  {
    assert (o + [w])[..|o|] == o;
  }

  lemma NoCounts(o: seq<Event>)
    requires o == []
    ensures Doublings(o) == 0 && Elapsed(o) == 0
  {
  }

  function Pow2(k: nat): (n: nat)
    ensures n >= 1
  {
    if k == 0 then 1 else 2 * Pow2(k - 1)
  }

  /** The initial delay doubled `k` times, but at most the maximal delay. */
  function Capped(p: ReconnectPolicy, k: nat): nat {
    Min(p.initialDelay * Pow2(k), p.maxDelay)
  }

  function TotalCapped(p: ReconnectPolicy, n: nat): nat {
    if n == 0 then 0 else TotalCapped(p, n - 1) + Capped(p, n - 1)
  }

  lemma CappedNext(p: ReconnectPolicy, k: nat)
    requires ValidReconnect(p)
    ensures Min(2 * Capped(p, k), p.maxDelay) == Capped(p, k + 1)
    ensures p.initialDelay <= Capped(p, k) <= p.maxDelay
  {
    assert p.initialDelay * Pow2(k + 1) == 2 * (p.initialDelay * Pow2(k));
    assert p.initialDelay * Pow2(k) >= p.initialDelay;
  }

  /** The wait at position `i` of an outage that began at `since`, under policy `p`. */
  ghost predicate SoundWait(p: ReconnectPolicy, o: seq<Event>, since: nat, i: nat)
    requires i < |o| && o[i].Wait?
  {
    && o[i].delay == Capped(p, Doublings(o[..i]))
    && since + Elapsed(o[..i]) <= o[i].begun
    && (o[i].degraded <==> o[i].begun - since >= p.offlineThreshold)
    && o[i].duration == (if o[i].degraded then p.offlineDelay else o[i].delay)
  }

  ghost predicate Sound(p: ReconnectPolicy, t: Task) {
    var o := Outage(t.log);
    && (o != [] ==> t.offlineSince.Some?)
    && (forall i :: 0 <= i < |o| ==> SoundWait(p, o, t.offlineSince.value, i))
    && (forall i, j :: 0 <= i <= j < |o| ==> o[i].begun <= o[j].begun)
    && (forall i :: 0 <= i < |o| ==> o[i].begun <= t.clock)
    && (t.offlineSince.Some? ==> t.offlineSince.value + (if t.stopped then 0 else Elapsed(o)) <= t.clock)
    && (!t.stopped ==> t.delay == Capped(p, Doublings(o)))
  }

  lemma SnocKeeps(p: ReconnectPolicy, o: seq<Event>, w: Event, since: nat)
    requires forall i :: 0 <= i < |o| ==> o[i].Wait? && SoundWait(p, o, since, i)
    requires w.Wait? && SoundWait(p, o + [w], since, |o|)
    ensures forall i :: 0 <= i < |o + [w]| ==> (o + [w])[i].Wait? && SoundWait(p, o + [w], since, i)
  {
    forall i | 0 <= i < |o|
      ensures SoundWait(p, o + [w], since, i)
    {
      assert (o + [w])[..i] == o[..i];
    }
  }

  lemma PauseKeepsSound(p: ReconnectPolicy, t: Task, r: Round)
    requires ValidReconnect(p) && Sound(p, t) && !t.stopped && r.policy == p && r.policyAfter == p
    requires t.offlineSince.Some? && t.offlineSince.value <= t.clock
    ensures Sound(p, Pause(t, r))
  {
    hide Outage, Doublings, Elapsed, Capped;
    var o, u := Outage(t.log), Pause(t, r);
    var w := u.log[|t.log|];
    OutageSnoc(t.log, w);
    CountsSnoc(o, w);
    assert (o + [w])[..|o|] == o;
    SnocKeeps(p, o, w, t.offlineSince.value);
    CappedNext(p, Doublings(o));
  }

  lemma StepKeepsSound(p: ReconnectPolicy, t: Task, r: Round)
    requires ValidReconnect(p) && Sound(p, t) && (t.offlineSince.Some? ==> t.offlineSince.value <= t.clock)
    requires r.policy == p && r.policyAfter == p && (r.attempt.Session? ==> r.attempt.policy == p)
    ensures Sound(p, Step(t, r))
  {
    if !t.stopped && !r.cancelledBefore && !r.disabled && !r.attempt.Interrupted? {
      var u := Attempted(t, r);
      if r.attempt.Session? {
        OutageSnoc(t.log, Opened(p.initialDelay));
        CappedNext(p, 0);
      }
      if !r.cancelledAfter {
        PauseKeepsSound(p, u, r);
      }
    }
  }

  lemma {:induction false} RunIsSound(p: ReconnectPolicy, script: seq<Round>)
    requires ValidReconnect(p) && Fixed(p, script)
    ensures Sound(p, Run(p, script))
  {
    if script == [] {
      CappedNext(p, 0);
    } else {
      RunIsSound(p, script[..|script| - 1]);
      StepKeepsSound(p, Run(p, script[..|script| - 1]), script[|script| - 1]);
    }
  }

  // ----- Main results -----

  /** The delay is the initial one doubled once for each completed wait of that length since the
      last connection, capped; and so it was for every wait of the outage. */
  lemma DelayIsCapped(p: ReconnectPolicy, script: seq<Round>)
    requires ValidReconnect(p) && Fixed(p, script)
    ensures var t, o := Run(p, script), Outage(Run(p, script).log);
            && (!t.stopped ==> t.delay == Capped(p, Doublings(o)) && p.initialDelay <= t.delay <= p.maxDelay)
            && forall i :: 0 <= i < |o| ==>
                 && o[i].delay == Capped(p, Doublings(o[..i]))
                 && o[i].duration == if o[i].degraded then p.offlineDelay else o[i].delay
  {
    hide Run, Outage, Doublings, Elapsed, Capped;
    RunIsSound(p, script);
    var t, o := Run(p, script), Outage(Run(p, script).log);
    CappedNext(p, Doublings(o));
    forall i | 0 <= i < |o|
      ensures o[i].delay == Capped(p, Doublings(o[..i]))
      ensures o[i].duration == if o[i].degraded then p.offlineDelay else o[i].delay
    {
      assert SoundWait(p, o, t.offlineSince.value, i);
    }
  }

  /** Once degraded, a task stays degraded until it has a connection again. */
  lemma DegradedUntilConnected(p: ReconnectPolicy, script: seq<Round>, i: nat, j: nat)
    requires ValidReconnect(p) && Fixed(p, script)
    requires i <= j < |Outage(Run(p, script).log)| && Outage(Run(p, script).log)[i].degraded
    ensures Outage(Run(p, script).log)[j].degraded
  {
    RunIsSound(p, script);
    var o := Outage(Run(p, script).log);
    assert SoundWait(p, o, Run(p, script).offlineSince.value, i);
    assert SoundWait(p, o, Run(p, script).offlineSince.value, j);
  }

  lemma {:induction false} ShortWaits(p: ReconnectPolicy, o: seq<Event>, n: nat)
    requires n <= |o|
    requires forall i :: 0 <= i < n ==>
               o[i].Wait? && !o[i].degraded && o[i].duration == o[i].delay == Capped(p, Doublings(o[..i]))
    ensures Doublings(o[..n]) == n && Elapsed(o[..n]) == TotalCapped(p, n)
    ensures forall i :: 0 <= i < n ==> o[i].duration == Capped(p, i)
  {
    hide Capped, Doublings, Elapsed;
    if n == 0 {
      NoCounts(o[..0]);
    } else {
      ShortWaits(p, o, n - 1);
      CountsSnoc(o[..n - 1], o[n - 1]);
      assert o[..n - 1] + [o[n - 1]] == o[..n];
    }
  }

  /** If the nth wait of an outage is not degraded, then the waits so far doubled each time, and
      those before it take less than the offline threshold together. */
  lemma WaitsBeforeDegraded(p: ReconnectPolicy, script: seq<Round>, n: nat)
    requires ValidReconnect(p) && Fixed(p, script)
    requires 0 < n <= |Outage(Run(p, script).log)| && !Outage(Run(p, script).log)[n - 1].degraded
    ensures forall i :: 0 <= i < n ==>
              var w := Outage(Run(p, script).log)[i]; !w.degraded && w.duration == Capped(p, i)
    ensures TotalCapped(p, n - 1) < p.offlineThreshold
  {
    hide Run, Outage, Capped, Doublings, Elapsed, TotalCapped;
    RunIsSound(p, script);
    var o, since := Outage(Run(p, script).log), Run(p, script).offlineSince.value;
    forall i | 0 <= i < n
      ensures o[i].Wait? && !o[i].degraded && o[i].duration == o[i].delay == Capped(p, Doublings(o[..i]))
    {
      assert SoundWait(p, o, since, i);
      if o[i].degraded {
        DegradedUntilConnected(p, script, i, n - 1);
      }
    }
    ShortWaits(p, o, n);
    assert Elapsed(o[..n - 1]) == TotalCapped(p, n - 1) by {
      ShortWaits(p, o, n - 1);
    }
    assert SoundWait(p, o, since, n - 1);
  }

  lemma Uncapped(p: ReconnectPolicy, n: nat)
    requires 0 < n
    ensures p.initialDelay * Pow2(n) == 2 * (p.initialDelay * Pow2(n - 1))
    ensures p.initialDelay * Pow2(n - 1) <= p.maxDelay ==> Capped(p, n - 1) == p.initialDelay * Pow2(n - 1)
  {
    assert Pow2(n) == 2 * Pow2(n - 1);
  }

  lemma {:induction false} TotalUncapped(p: ReconnectPolicy, n: nat)
    requires ValidReconnect(p) && (n > 0 ==> p.initialDelay * Pow2(n - 1) <= p.maxDelay)
    ensures TotalCapped(p, n) == p.initialDelay * (Pow2(n) - 1)
  {
    if n > 0 {
      Uncapped(p, n);
      if n > 1 {
        Uncapped(p, n - 1);
      }
      hide Capped, Pow2;
      TotalUncapped(p, n - 1);
      calc {
        p.initialDelay * (Pow2(n) - 1);
        p.initialDelay * Pow2(n) - p.initialDelay;
        p.initialDelay * (Pow2(n - 1) - 1) + p.initialDelay * Pow2(n - 1);
      }
    } else {
      assert Pow2(0) == 1;
    }
  }

  lemma {:induction false} TotalAtLeast(p: ReconnectPolicy, n: nat)
    requires ValidReconnect(p)
    ensures TotalCapped(p, n) >= n * p.initialDelay
  {
    hide Capped, Pow2;
    if n > 0 {
      assert n * p.initialDelay == (n - 1) * p.initialDelay + p.initialDelay;
      TotalAtLeast(p, n - 1);
      CappedNext(p, n - 1);
    }
  }

  /** How many waits of an outage can come before the degraded ones: with `n` of them,
      `initialDelay * (n - 1)` is below the threshold, and as long as the cap is not reached even
      `initialDelay * (2^(n - 1) - 1)`. */
  lemma OfflineIsNoticed(p: ReconnectPolicy, script: seq<Round>, n: nat)
    requires ValidReconnect(p) && Fixed(p, script)
    requires 0 < n <= |Outage(Run(p, script).log)| && !Outage(Run(p, script).log)[n - 1].degraded
    ensures p.initialDelay * (n - 1) < p.offlineThreshold
    ensures n == 1 || p.initialDelay * Pow2(n - 2) <= p.maxDelay ==>
              p.initialDelay * (Pow2(n - 1) - 1) < p.offlineThreshold
  {
    hide Run, Outage, Capped, Pow2;
    WaitsBeforeDegraded(p, script, n);
    TotalAtLeast(p, n - 1);
    if n == 1 || p.initialDelay * Pow2(n - 2) <= p.maxDelay {
      TotalUncapped(p, n - 1);
    }
  }

  /** Waits do not stop the delay from growing in degraded mode, but it grows at most once: only
      a delay equal to the offline delay doubles. */
  lemma {:induction false} DegradedGrowsOnce(p: ReconnectPolicy, script: seq<Round>, i: nat, j: nat)
    requires ValidReconnect(p) && Fixed(p, script)
    requires i <= j < |Outage(Run(p, script).log)| && Outage(Run(p, script).log)[i].degraded
    ensures var o := Outage(Run(p, script).log);
            || o[j].delay == o[i].delay
            || (o[i].delay == p.offlineDelay && o[j].delay == Min(2 * o[i].delay, p.maxDelay))
  {
    hide Run, Outage, Capped, Doublings;
    if i < j {
      var o := Outage(Run(p, script).log);
      DegradedGrowsOnce(p, script, i, j - 1);
      DegradedUntilConnected(p, script, i, j - 1);
      DelayIsCapped(p, script);
      assert o[..j] == o[..j - 1] + [o[j - 1]];
      CountsSnoc(o[..j - 1], o[j - 1]);
      CappedNext(p, Doublings(o[..j - 1]));
    }
  }

  /** The task returns exactly when a cancellation reaches it. */
  lemma {:induction false} ReturnsIffCancelled(first: ReconnectPolicy, script: seq<Round>)
    ensures Run(first, script).stopped <==> exists r :: r in script && Cancels(r)
    ensures Run(first, script).stopped <==>
              exists r :: r in script
                          && (r.cancelledBefore
                              || (!r.disabled && (r.attempt.Interrupted? || r.cancelledAfter || r.cancelledAsleep)))
  {
    if script != [] {
      var before, last := script[..|script| - 1], script[|script| - 1];
      ReturnsIffCancelled(first, before);
      assert forall r :: r in script <==> r in before || r == last by {
        assert script == before + [last];
      }
      if Run(first, before).stopped {
        var r :| r in before && Cancels(r);
        assert r in script;
      } else {
        assert Run(first, script).stopped == Cancels(last);
        assert last in script;
      }
    }
  }

  /** Whatever policies come and go, the delay never exceeds the largest maximum among them; so
      doubling it stays below twice that. */
  lemma {:induction false} DelayStaysWithin(most: nat, first: ReconnectPolicy, script: seq<Round>)
    requires WithinPolicy(most, first) && Within(most, script)
    ensures 0 < Run(first, script).delay <= most
    ensures 2 * Run(first, script).delay <= 2 * most
  {
    if script != [] {
      DelayStaysWithin(most, first, script[..|script| - 1]);
    }
  }

  /** A running task has waited since its last connection. */
  lemma {:induction false} OpenedIsAnswered(first: ReconnectPolicy, script: seq<Round>)
    ensures var t := Run(first, script); t.log != [] && t.log[|t.log| - 1].Opened? ==> t.stopped
  {
    if script != [] {
      OpenedIsAnswered(first, script[..|script| - 1]);
    }
  }

  /** After a connection drops, the delay starts from the initial one read when that connection
      came about, and the first wait is that long unless it is already degraded. */
  lemma {:induction false} FirstWaitAfterDrop(first: ReconnectPolicy, script: seq<Round>, i: nat)
    requires i + 1 < |Run(first, script).log| && Run(first, script).log[i].Opened?
    ensures var c, w := Run(first, script).log[i], Run(first, script).log[i + 1];
            w.Wait? && w.delay == c.initialDelay && (!w.degraded ==> w.duration == c.initialDelay)
  {
    var t := Run(first, script[..|script| - 1]);
    if i + 1 < |t.log| {
      FirstWaitAfterDrop(first, script[..|script| - 1], i);
    } else if i + 1 == |t.log| {
      OpenedIsAnswered(first, script[..|script| - 1]);
    }
  }

  // ----- Rounds -----

  predicate Connects(r: Round) {
    !r.disabled && r.attempt.Session?
  }

  /** The last round with a session. */
  function LastSession(script: seq<Round>): (k: Option<nat>)
    ensures k.Some? ==> k.value < |script| && Connects(script[k.value])
    ensures k.Some? ==> forall j :: k.value < j < |script| ==> !Connects(script[j])
    ensures k.None? ==> forall j :: 0 <= j < |script| ==> !Connects(script[j])
  {
    if script == [] then None
    else
      var last := |script| - 1;
      if Connects(script[last]) then Some(last) else LastSession(script[..last])
  }

  /** The first round with an attempt. */
  function FirstAttempt(script: seq<Round>): (k: Option<nat>)
    ensures k.Some? ==> k.value < |script| && !script[k.value].disabled
    ensures k.Some? ==> forall j :: 0 <= j < k.value ==> script[j].disabled
    ensures k.None? ==> forall j :: 0 <= j < |script| ==> script[j].disabled
  {
    if script == [] then None
    else
      var last := |script| - 1;
      var k := FirstAttempt(script[..last]);
      if k.Some? then k else if script[last].disabled then None else Some(last)
  }

  /** The time that rounds take, apart from their waits. */
  function Scripted(script: seq<Round>): nat {
    if script == [] then 0
    else
      var r := script[|script| - 1];
      Scripted(script[..|script| - 1]) + r.busy + if r.disabled then 0 else r.lag + r.oversleep
  }

  /** How long the rounds of a script take when none is cut short. */
  function Spent(first: ReconnectPolicy, script: seq<Round>): nat {
    Scripted(script) + Elapsed(Run(first, script).log)
  }

  /** Since when a source is offline: the end of its last session or, without one, the end of the
      first attempt. */
  function OfflineFrom(first: ReconnectPolicy, script: seq<Round>): nat
    requires FirstAttempt(script).Some?
  {
    var session := LastSession(script);
    var k := if session.Some? then session.value else FirstAttempt(script).value;
    Spent(first, script[..k]) + script[k].busy
  }

  predicate Uncancelled(r: Round) {
    && !r.cancelledBefore
    && (!r.disabled ==> !r.attempt.Interrupted? && !r.cancelledAfter && !r.cancelledAsleep)
  }

  /** Round `k` is reached and makes an attempt, and goes on to wait. */
  ghost predicate Waits(script: seq<Round>, k: nat)
    requires k < |script|
  {
    && (forall j :: 0 <= j < k ==> Uncancelled(script[j]))
    && !script[k].cancelledBefore && !script[k].disabled
    && !script[k].attempt.Interrupted? && !script[k].cancelledAfter
  }

  lemma ElapsedOpened(log: seq<Event>, delay: nat)
    ensures Elapsed(log + [Opened(delay)]) == Elapsed(log)
  {
    assert (log + [Opened(delay)])[..|log|] == log;
  }

  lemma StepSpends(t: Task, r: Round)
    requires !t.stopped && Uncancelled(r) && (t.offlineSince.Some? ==> t.offlineSince.value <= t.clock)
    ensures !Step(t, r).stopped
    ensures Step(t, r).clock + Elapsed(t.log) ==
            t.clock + Elapsed(Step(t, r).log) + r.busy + if r.disabled then 0 else r.lag + r.oversleep
  {
    hide Elapsed;
    if !r.disabled {
      var u := Attempted(t, r);
      if r.attempt.Session? {
        ElapsedOpened(t.log, r.attempt.policy.initialDelay);
      }
      CountsSnoc(u.log, Pause(u, r).log[|u.log|]);
    }
  }

  lemma {:induction false} ClockIsSpent(first: ReconnectPolicy, script: seq<Round>)
    requires forall j :: 0 <= j < |script| ==> Uncancelled(script[j])
    ensures !Run(first, script).stopped && Run(first, script).clock == Spent(first, script)
  {
    hide Step, Elapsed, Uncancelled;
    if script == [] {
      NoCounts(Run(first, script).log);
    } else {
      var past, r := script[..|script| - 1], script[|script| - 1];
      ClockIsSpent(first, past);
      StepSpends(Run(first, past), r);
    }
  }

  /** Adding a round to a script moves the start of the outage only if it connects. */
  lemma OfflineFromSnoc(first: ReconnectPolicy, past: seq<Round>, r: Round)
    ensures FirstAttempt(past + [r]).Some? <==> FirstAttempt(past).Some? || !r.disabled
    ensures !r.disabled && (FirstAttempt(past).None? || Connects(r)) ==>
              OfflineFrom(first, past + [r]) == Spent(first, past) + r.busy
    ensures FirstAttempt(past).Some? && !Connects(r) ==> OfflineFrom(first, past + [r]) == OfflineFrom(first, past)
  {
    hide Run, Scripted, Elapsed, Spent;
    var script := past + [r];
    assert script[..|past|] == past;
    if FirstAttempt(past).Some? && !Connects(r) {
      var session := LastSession(past);
      assert LastSession(script) == session && FirstAttempt(script) == FirstAttempt(past);
      var k := if session.Some? then session.value else FirstAttempt(past).value;
      assert script[..k] == past[..k];
    } else if !r.disabled && FirstAttempt(past).None? {
      assert LastSession(past).None?;
    }
  }

  lemma NoAttempts()
    ensures FirstAttempt([]) == None
  {
  }

  /** The loop's record of when the source went offline. */
  lemma {:induction false} OfflineSinceIs(first: ReconnectPolicy, script: seq<Round>)
    requires forall j :: 0 <= j < |script| ==> Uncancelled(script[j])
    ensures Run(first, script).offlineSince ==
            if FirstAttempt(script).Some? then Some(OfflineFrom(first, script)) else None
  {
    hide FirstAttempt, OfflineFrom, Spent;
    if script == [] {
      NoAttempts();
    } else {
      var past, r := script[..|script| - 1], script[|script| - 1];
      assert script == past + [r];
      OfflineSinceIs(first, past);
      ClockIsSpent(first, past);
      OfflineFromSnoc(first, past, r);
    }
  }

  /** The delay that waiting `w` in round `r` leads to. */
  function Following(w: Event, r: Round): nat
    requires w.Wait?
  {
    if w.duration == w.delay then Min(2 * w.delay, r.policyAfter.maxDelay) else w.delay
  }

  /** The delay after a script: that which follows from its last wait. */
  function DelayAfter(first: ReconnectPolicy, script: seq<Round>): nat {
    if script == [] then first.initialDelay
    else
      var past, r, log := script[..|script| - 1], script[|script| - 1], Run(first, script).log;
      if r.disabled || log == [] || !log[|log| - 1].Wait? then DelayAfter(first, past)
      else Following(log[|log| - 1], r)
  }

  lemma {:induction false} DelayIsFollowing(first: ReconnectPolicy, script: seq<Round>)
    requires forall j :: 0 <= j < |script| ==> Uncancelled(script[j])
    ensures Run(first, script).delay == DelayAfter(first, script)
  {
    if script != [] {
      DelayIsFollowing(first, script[..|script| - 1]);
      ClockIsSpent(first, script[..|script| - 1]);
    }
  }

  /** What a round adds to the log, under whatever policies: the connection, if there was one, and a
      wait. It begins when the rounds before it and its own attempt have taken their time; it is
      degraded if and only if the source has by then been offline for the threshold; and it is
      as long as the policy says, the delay being the initial one after a connection and
      otherwise that which followed from the wait before. */
  lemma RoundLogs(first: ReconnectPolicy, script: seq<Round>, k: nat)
    requires k < |script| && Waits(script, k)
    ensures FirstAttempt(script[..k + 1]).Some?
    ensures var before, after, r := Run(first, script[..k]).log, Run(first, script[..k + 1]).log, script[k];
            var connection := if r.attempt.Session? then [Opened(r.attempt.policy.initialDelay)] else [];
            && |after| == |before| + |connection| + 1 && after[..|after| - 1] == before + connection
            && var w := after[|after| - 1];
               && w.Wait?
               && w.begun == Spent(first, script[..k]) + r.busy + r.lag
               && (w.degraded <==> w.begun - OfflineFrom(first, script[..k + 1]) >= r.policy.offlineThreshold)
               && w.duration == (if w.degraded then r.policy.offlineDelay else w.delay)
               && w.delay ==
                  if r.attempt.Session? then r.attempt.policy.initialDelay else DelayAfter(first, script[..k])
  {
    hide FirstAttempt, OfflineFrom, Spent, DelayAfter;
    var past, r := script[..k], script[k];
    assert script[..k + 1] == past + [r] && (past + [r])[..k] == past;
    ClockIsSpent(first, past);
    OfflineSinceIs(first, past);
    OfflineFromSnoc(first, past, r);
    DelayIsFollowing(first, past);
  }

  /** In particular, the first wait after a drop is degraded if and only if the threshold has passed
      between the drop and the look at the clock. */
  lemma DropRestartsTheClock(first: ReconnectPolicy, script: seq<Round>, k: nat)
    requires k < |script| && Waits(script, k) && script[k].attempt.Session?
    ensures var log, r := Run(first, script[..k + 1]).log, script[k];
            && |log| >= 2 && log[|log| - 2] == Opened(r.attempt.policy.initialDelay) && log[|log| - 1].Wait?
            && log[|log| - 1].delay == r.attempt.policy.initialDelay
            && (log[|log| - 1].degraded <==> r.lag >= r.policy.offlineThreshold)
  {
    hide Run, Spent;
    RoundLogs(first, script, k);
    OfflineFromSnoc(first, script[..k], script[k]);
    assert script[..k + 1] == script[..k] + [script[k]];
    var log, before := Run(first, script[..k + 1]).log, Run(first, script[..k]).log;
    assert log[|log| - 2] == log[..|log| - 1][|before|];
  }

  /** Under one policy, the degraded waits of an outage are those that begin once the source has been
      offline for the threshold. */
  lemma DegradedIffOffline(p: ReconnectPolicy, script: seq<Round>, i: nat)
    requires ValidReconnect(p) && Fixed(p, script) && i < |Outage(Run(p, script).log)|
    ensures Run(p, script).offlineSince.Some?
    ensures var since, w := Run(p, script).offlineSince.value, Outage(Run(p, script).log)[i];
            since <= w.begun && (w.degraded <==> w.begun - since >= p.offlineThreshold)
    ensures (forall j :: 0 <= j < |script| ==> Uncancelled(script[j])) ==>
              FirstAttempt(script).Some? && Run(p, script).offlineSince.value == OfflineFrom(p, script)
  {
    hide Run, Outage, Capped, Doublings, FirstAttempt, OfflineFrom, Uncancelled;
    RunIsSound(p, script);
    assert SoundWait(p, Outage(Run(p, script).log), Run(p, script).offlineSince.value, i);
    if forall j :: 0 <= j < |script| ==> Uncancelled(script[j]) {
      OfflineSinceIs(p, script);
    }
  }
}
