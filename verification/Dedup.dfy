/** The two-generation duplicate filter. Time is a natural number read from a clock that
    never runs backwards; the clock reading is an argument of `Admit`. */
module Dedup {
  import opened Bytes

  type Key = Data

  datatype Cache = Cache(window: nat, rotatedAt: nat, current: set<Key>, previous: set<Key>)

  /** `Instant::duration_since`, which saturates at zero. */
  function Elapsed(now: nat, since: nat): nat {
    if now >= since then now - since else 0
  }

  function New(window: nat, now: nat): Cache {
    Cache(window, now, {}, {})
  }

  function Rotate(c: Cache, now: nat): Cache {
    if Elapsed(now, c.rotatedAt) >= c.window then Cache(c.window, now, {}, c.current) else c
  }

  predicate Admits(c: Cache, key: Key, now: nat) {
    var r := Rotate(c, now);
    key !in r.current && key !in r.previous
  }

  function AdmitStep(c: Cache, key: Key, now: nat): Cache {
    var r := Rotate(c, now);
    if Admits(c, key, now) then r.(current := r.current + {key}) else r
  }

  class DedupCache {
    const window: nat
    var rotatedAt: nat
    var current: set<Key>
    var previous: set<Key>

    ghost function Contents(): Cache
      reads this
    {
      Cache(window, rotatedAt, current, previous)
    }

    constructor (window: nat, now: nat)
      ensures Contents() == New(window, now)
    {
      this.window := window;
      rotatedAt := now;
      current := {};
      previous := {};
    }

    method Admit(key: Key, now: nat) returns (isNew: bool)
      modifies this
      ensures Contents() == AdmitStep(old(Contents()), key, now)
      ensures isNew == Admits(old(Contents()), key, now)
    {
      if Elapsed(now, rotatedAt) >= window {
        current, previous := previous, current;
        current := {};
        rotatedAt := now;
      }
      if key in current || key in previous {
        return false;
      }
      current := current + {key};
      return true;
    }
  }

  // ----- Histories -----

  datatype Call = Call(key: Key, now: nat)

  /** A cache's whole life: its window, the time it was created, and the calls of `Admit`. */
  datatype History = History(window: nat, born: nat, calls: seq<Call>)

  ghost predicate Monotone(h: History) {
    && (forall i :: 0 <= i < |h.calls| ==> h.born <= h.calls[i].now)
    && (forall i, j :: 0 <= i < j < |h.calls| ==> h.calls[i].now <= h.calls[j].now)
  }

  /** The cache after the first `n` calls. */
  function StateAt(h: History, n: nat): Cache
    requires n <= |h.calls|
  {
    if n == 0 then New(h.window, h.born)
    else AdmitStep(StateAt(h, n - 1), h.calls[n - 1].key, h.calls[n - 1].now)
  }

  predicate Admitted(h: History, i: nat)
    requires i < |h.calls|
  {
    Admits(StateAt(h, i), h.calls[i].key, h.calls[i].now)
  }

  /** Start of the generation that is open after `n` calls; no key is looked at. */
  function Start(h: History, n: nat): nat
    requires n <= |h.calls|
  {
    if n == 0 then h.born
    else if Elapsed(h.calls[n - 1].now, Start(h, n - 1)) >= h.window then h.calls[n - 1].now
    else Start(h, n - 1)
  }

  /** Number of generations closed by the first `n` calls. */
  function Gen(h: History, n: nat): nat
    requires n <= |h.calls|
  {
    if n == 0 then 0
    else if Elapsed(h.calls[n - 1].now, Start(h, n - 1)) >= h.window then Gen(h, n - 1) + 1
    else Gen(h, n - 1)
  }

  /** The generation that call `i` falls into. */
  function GenOf(h: History, i: nat): nat
    requires i < |h.calls|
  {
    Gen(h, i + 1)
  }

  /** One of the first `n` calls admitted `key` in generation `g`. */
  ghost predicate AdmittedIn(h: History, n: nat, key: Key, g: int)
    requires n <= |h.calls|
  {
    exists i :: 0 <= i < n && h.calls[i].key == key && Admitted(h, i) && GenOf(h, i) == g
  }

  lemma {:induction false} GenMonotone(h: History, m: nat, n: nat)
    requires m <= n <= |h.calls|
    ensures Gen(h, m) <= Gen(h, n)
    ensures Gen(h, m) == Gen(h, n) ==> Start(h, m) == Start(h, n)
  {
    if m < n {
      GenMonotone(h, m, n - 1);
    }
  }

  lemma AdmittedInStep(h: History, n: nat, key: Key, g: int)
    requires 0 < n <= |h.calls|
    ensures AdmittedIn(h, n, key, g) <==>
            AdmittedIn(h, n - 1, key, g)
            || (key == h.calls[n - 1].key && Admitted(h, n - 1) && GenOf(h, n - 1) == g)
  {
    hide StateAt, Gen, Admitted, GenOf;
  }

  lemma AdmittedInPast(h: History, n: nat, key: Key, g: int)
    requires n <= |h.calls| && AdmittedIn(h, n, key, g)
    ensures 0 <= g <= Gen(h, n)
  {
    var i :| 0 <= i < n && h.calls[i].key == key && Admitted(h, i) && GenOf(h, i) == g;
    GenMonotone(h, i + 1, n);
  }

  lemma StepSets(h: History, n: nat)
    requires 0 < n <= |h.calls|
    requires StateAt(h, n - 1).rotatedAt == Start(h, n - 1) && StateAt(h, n - 1).window == h.window
    ensures var c, d, key := StateAt(h, n - 1), StateAt(h, n), h.calls[n - 1].key;
            var added := if Admitted(h, n - 1) then {key} else {};
            && d.window == h.window && d.rotatedAt == Start(h, n)
            && (Admitted(h, n - 1) ==> key !in d.previous)
            && (if Gen(h, n) == Gen(h, n - 1)
                then d.previous == c.previous && d.current == c.current + added
                else d.previous == c.current && d.current == added)
  {
  }

  /** The two sets of a cache hold exactly what was admitted in the open generation and in
      the one before it, and share nothing. */
  ghost predicate HoldsTwoGenerations(h: History, n: nat)
    requires n <= |h.calls|
  {
    var c := StateAt(h, n);
    && c.window == h.window && c.rotatedAt == Start(h, n)
    && c.current !! c.previous
    && (forall key :: key in c.current <==> AdmittedIn(h, n, key, Gen(h, n)))
    && (forall key :: key in c.previous <==> AdmittedIn(h, n, key, Gen(h, n) - 1))
  }

  lemma GenOfLast(h: History, n: nat)
    requires 0 < n <= |h.calls|
    ensures GenOf(h, n - 1) == Gen(h, n)
  {
  }

  lemma MemberStep(h: History, n: nat, key: Key)
    requires 0 < n <= |h.calls| && HoldsTwoGenerations(h, n - 1)
    ensures key in StateAt(h, n).current <==> AdmittedIn(h, n, key, Gen(h, n))
    ensures key in StateAt(h, n).previous <==> AdmittedIn(h, n, key, Gen(h, n) - 1)
  {
    hide StateAt, Start, GenOf, Admitted, AdmittedIn;
    var g: int := Gen(h, n);
    assert g == Gen(h, n - 1) || g == Gen(h, n - 1) + 1;
    hide Gen;
    StepSets(h, n);
    GenOfLast(h, n);
    AdmittedInStep(h, n, key, g);
    AdmittedInStep(h, n, key, g - 1);
    if AdmittedIn(h, n - 1, key, g) {
      AdmittedInPast(h, n - 1, key, g);
    }
  }

  lemma SetsStep(h: History, n: nat)
    requires 0 < n <= |h.calls| && HoldsTwoGenerations(h, n - 1)
    ensures HoldsTwoGenerations(h, n)
  {
    StepSets(h, n);
    hide StateAt, Start, Gen, GenOf, Admitted, AdmittedIn;
    forall key
      ensures key in StateAt(h, n).current <==> AdmittedIn(h, n, key, Gen(h, n))
      ensures key in StateAt(h, n).previous <==> AdmittedIn(h, n, key, Gen(h, n) - 1)
    {
      MemberStep(h, n, key);
    }
  }

  lemma NothingHeldAtFirst(h: History)
    ensures HoldsTwoGenerations(h, 0)
  {
  }

  lemma {:induction false} SetsAreGenerations(h: History, n: nat)
    requires n <= |h.calls|
    ensures HoldsTwoGenerations(h, n)
  {
    hide HoldsTwoGenerations;
    if n == 0 {
      NothingHeldAtFirst(h);
    } else {
      SetsAreGenerations(h, n - 1);
      SetsStep(h, n);
    }
  }

  lemma SuppressedIffHeld(h: History, n: nat)
    requires n < |h.calls|
    ensures var key := h.calls[n].key;
            !Admitted(h, n) <==> AdmittedIn(h, n, key, GenOf(h, n)) || AdmittedIn(h, n, key, GenOf(h, n) - 1)
  {
    SetsAreGenerations(h, n);
    var key, g: int, c := h.calls[n].key, Gen(h, n), StateAt(h, n);
    assert key in c.current <==> AdmittedIn(h, n, key, g);
    assert key in c.previous <==> AdmittedIn(h, n, key, g - 1);
    assert c.window == h.window && c.rotatedAt == Start(h, n);
    hide HoldsTwoGenerations, StateAt, Start, AdmittedIn;
    if AdmittedIn(h, n, key, g + 1) {
      AdmittedInPast(h, n, key, g + 1);
    }
  }

  lemma GenOfMonotone(h: History, i: nat, n: nat)
    requires i <= n < |h.calls|
    ensures GenOf(h, i) <= GenOf(h, n)
  {
    GenMonotone(h, i + 1, n + 1);
  }

  /** A call is suppressed exactly when its key was admitted in the same generation or in
      the one just before it. */
  lemma SuppressedIffRecent(h: History, n: nat)
    requires n < |h.calls|
    ensures !Admitted(h, n) <==>
            exists i :: 0 <= i < n && h.calls[i].key == h.calls[n].key && Admitted(h, i)
                        && GenOf(h, i) >= GenOf(h, n) - 1
  {
    SuppressedIffHeld(h, n);
    hide StateAt, Gen, Start, Admitted, GenOf;
    forall i | 0 <= i < n && Admitted(h, i)
      ensures GenOf(h, i) <= GenOf(h, n)
    {
      GenOfMonotone(h, i, n);
    }
  }

  // ----- Timing -----

  /** A call either leaves the generation alone or opens the next one at its own time. */
  lemma GenStep(h: History, n: nat)
    requires 0 < n <= |h.calls| && h.window > 0
    ensures var now := h.calls[n - 1].now;
            if now >= Start(h, n - 1) + h.window
            then Gen(h, n) == Gen(h, n - 1) + 1 && Start(h, n) == now
            else Gen(h, n) == Gen(h, n - 1) && Start(h, n) == Start(h, n - 1)
  {
  }

  lemma {:induction false} InsideGeneration(h: History, n: nat)
    requires Monotone(h) && 0 < n <= |h.calls| && h.window > 0
    ensures Start(h, n) <= h.calls[n - 1].now < Start(h, n) + h.window
  {
    if n > 1 {
      InsideGeneration(h, n - 1);
    }
  }

  /** Generations that follow the one of call `i` start late. */
  lemma {:induction false} Spread(h: History, i: nat, n: nat)
    requires Monotone(h) && i < n <= |h.calls| && h.window > 0
    requires Gen(h, n) > Gen(h, i + 1)
    ensures Start(h, n) > h.calls[i].now + (Gen(h, n) - Gen(h, i + 1) - 1) * h.window
  {
    hide Gen, Start;
    InsideGeneration(h, i + 1);
    GenMonotone(h, i + 1, n - 1);
    GenStep(h, n);
    var a, b := Gen(h, n - 1) - Gen(h, i + 1) - 1, Gen(h, n) - Gen(h, i + 1) - 1;
    if a < 0 {
      assert b * h.window == 0;
    } else {
      Spread(h, i, n - 1);
      assert (a + 1) * h.window == a * h.window + h.window;
    }
  }

  /** `idx` lists calls that admitted `key`, in order. */
  ghost predicate AdmissionsOf(h: History, key: Key, idx: seq<nat>) {
    && (forall a :: 0 <= a < |idx| ==> idx[a] < |h.calls| && h.calls[idx[a]].key == key && Admitted(h, idx[a]))
    && (forall a, b :: 0 <= a < b < |idx| ==> idx[a] < idx[b])
  }

  lemma {:induction false} TwoGenerationsEach(h: History, key: Key, idx: seq<nat>)
    requires AdmissionsOf(h, key, idx) && |idx| > 0
    ensures GenOf(h, idx[|idx| - 1]) >= GenOf(h, idx[0]) + 2 * (|idx| - 1)
  {
    if |idx| > 1 {
      var k := |idx| - 1;
      TwoGenerationsEach(h, key, idx[..k]);
      SuppressedIffRecent(h, idx[k]);
      assert idx[..k][k - 1] == idx[k - 1];
    }
  }

  lemma MulMonotone(a: nat, b: nat, w: nat)
    requires a <= b
    ensures a * w <= b * w
  {
    assert b * w == a * w + (b - a) * w;
  }

  /** Any k + 1 admissions of one key span strictly more than 2k - 1 windows. */
  lemma AdmissionsAreSparse(h: History, key: Key, idx: seq<nat>)
    requires Monotone(h) && h.window > 0 && AdmissionsOf(h, key, idx) && |idx| > 1
    ensures h.calls[idx[|idx| - 1]].now > h.calls[idx[0]].now + (2 * (|idx| - 1) - 1) * h.window
  {
    var k := |idx| - 1;
    TwoGenerationsEach(h, key, idx);
    var g := GenOf(h, idx[k]) - GenOf(h, idx[0]) - 1;
    Spread(h, idx[0], idx[k] + 1);
    InsideGeneration(h, idx[k] + 1);
    MulMonotone(2 * k - 1, g, h.window);
  }

  /** A key stays suppressed for at least one window after it is admitted. */
  lemma SurvivesAWindow(h: History, i: nat, j: nat)
    requires Monotone(h) && h.window > 0 && i < j < |h.calls|
    requires h.calls[i].key == h.calls[j].key && Admitted(h, i)
    requires h.calls[j].now <= h.calls[i].now + h.window
    ensures !Admitted(h, j)
  {
    if Admitted(h, j) {
      AdmissionsAreSparse(h, h.calls[i].key, [i, j]);
    }
  }

  /** Consecutive calls are at most `gap` apart. */
  ghost predicate Busy(h: History, gap: nat) {
    forall n :: 0 < n < |h.calls| ==> h.calls[n].now <= h.calls[n - 1].now + gap
  }

  lemma {:induction false} NextGenerationSoon(h: History, i: nat, n: nat, gap: nat)
    requires Monotone(h) && h.window > 0 && Busy(h, gap) && i < n <= |h.calls|
    requires Gen(h, n) == Gen(h, i + 1) + 1
    ensures Start(h, n) < h.calls[i].now + h.window + gap
  {
    hide Gen, Start;
    InsideGeneration(h, i + 1);
    GenMonotone(h, i + 1, n - 1);
    GenStep(h, n);
    if Gen(h, n - 1) == Gen(h, n) {
      NextGenerationSoon(h, i, n - 1, gap);
    } else {
      InsideGeneration(h, n - 1);
    }
  }

  /** While calls keep coming, a suppressed key was admitted less than two windows and one
      gap ago. */
  lemma SuppressionIsBounded(h: History, n: nat, gap: nat)
    requires Monotone(h) && h.window > 0 && Busy(h, gap) && n < |h.calls| && !Admitted(h, n)
    ensures exists i :: 0 <= i < n && h.calls[i].key == h.calls[n].key && Admitted(h, i)
                        && h.calls[n].now < h.calls[i].now + 2 * h.window + gap
  {
    hide StateAt, Gen, Start, Admitted;
    SuppressedIffRecent(h, n);
    var i :| 0 <= i < n && h.calls[i].key == h.calls[n].key && Admitted(h, i)
             && GenOf(h, i) >= GenOf(h, n) - 1;
    GenMonotone(h, i + 1, n + 1);
    InsideGeneration(h, i + 1);
    InsideGeneration(h, n + 1);
    if GenOf(h, n) > GenOf(h, i) {
      NextGenerationSoon(h, i, n + 1, gap);
    }
  }

  /** The bound without `gap` that the code's comment claims does not hold: after any idle
      time, however long, a key may still be suppressed. */
  lemma IdleCacheStillSuppresses(key: Key, window: nat, idle: nat)
    requires idle >= window > 0
    ensures var h := History(window, 0, [Call(key, 0), Call(key, idle)]);
            Monotone(h) && Admitted(h, 0) && !Admitted(h, 1)
  {
    var h := History(window, 0, [Call(key, 0), Call(key, idle)]);
    assert StateAt(h, 1) == Cache(window, 0, {key}, {});
  }

  lemma RotatesBy(h: History, m: nat, n: nat)
    requires h.window > 0 && m <= n < |h.calls| && h.calls[n].now >= Start(h, m) + h.window
    ensures Gen(h, n + 1) > Gen(h, m)
  {
    hide Gen, Start;
    GenMonotone(h, m, n);
    GenStep(h, n + 1);
  }

  /** The first call after `i` that opens a new generation. */
  lemma {:induction false} FirstRotation(h: History, i: nat, n: nat) returns (c: nat)
    requires Monotone(h) && h.window > 0 && i < n <= |h.calls| && Gen(h, n) > Gen(h, i + 1)
    ensures i < c < n && Gen(h, c + 1) == Gen(h, i + 1) + 1
    ensures h.calls[c].now == Start(h, c + 1) >= Start(h, i + 1) + h.window
  {
    hide Gen, Start;
    GenMonotone(h, i + 1, n - 1);
    GenStep(h, n);
    if Gen(h, n - 1) > Gen(h, i + 1) {
      c := FirstRotation(h, i, n - 1);
    } else {
      c := n - 1;
    }
  }

  /** Exactly when a key is admitted again: some call in between came at least one window
      after `rotatedAt` as the last admission left it, and at least one window ago. */
  lemma ReadmittedIff(h: History, i: nat, n: nat)
    requires Monotone(h) && h.window > 0 && i < n < |h.calls|
    requires h.calls[i].key == h.calls[n].key && Admitted(h, i)
    requires forall j :: i < j < n && h.calls[j].key == h.calls[i].key ==> !Admitted(h, j)
    ensures Admitted(h, n) <==>
            exists c :: i < c < n && h.calls[c].now >= StateAt(h, i + 1).rotatedAt + h.window
                        && h.calls[n].now >= h.calls[c].now + h.window
  {
    hide StateAt, Gen, Start, Admitted;
    SetsAreGenerations(h, i + 1);
    SuppressedIffRecent(h, n);
    GenMonotone(h, i + 1, n + 1);
    forall j | 0 <= j < n && h.calls[j].key == h.calls[n].key && Admitted(h, j)
      ensures GenOf(h, j) <= GenOf(h, i)
    {
      GenMonotone(h, j + 1, i + 1);
    }
    if GenOf(h, n) >= GenOf(h, i) + 2 {
      var c := FirstRotation(h, i, n + 1);
      var d := FirstRotation(h, c, n + 1);
      assert h.calls[c].now >= StateAt(h, i + 1).rotatedAt + h.window;
      assert h.calls[n].now >= h.calls[c].now + h.window;
    }
    forall c | i < c < n && h.calls[c].now >= StateAt(h, i + 1).rotatedAt + h.window
               && h.calls[n].now >= h.calls[c].now + h.window
      ensures GenOf(h, n) >= GenOf(h, i) + 2
    {
      RotatesBy(h, i + 1, c);
      InsideGeneration(h, c + 1);
      RotatesBy(h, c + 1, n);
    }
  }

  /** Later calls do not change what a cache did before them. */
  lemma {:induction false} PrefixStable(h: History, more: seq<Call>, n: nat)
    requires n <= |h.calls|
    ensures var longer := h.(calls := h.calls + more);
            && StateAt(longer, n) == StateAt(h, n)
            && Gen(longer, n) == Gen(h, n) && Start(longer, n) == Start(h, n)
            && (forall i :: 0 <= i < n ==> Admitted(longer, i) == Admitted(h, i))
  {
    if n > 0 {
      PrefixStable(h, more, n - 1);
    }
  }
}
