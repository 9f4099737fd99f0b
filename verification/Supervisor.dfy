/** Reconciling running tasks with a reloaded configuration. Runtimes and tasks are heap
    objects, so that it can be said which ones survive a reload; tasks keep running while a
    reload is being applied. */
module Supervisor {
  import opened Bytes
  import opened Utf8
  import opened Wrappers
  import opened Config
  import opened State
  import Upstream
  import Backoff

  /** What a connection to an upstream was opened with. */
  datatype Link = Link(url: Str, headers: map<Str, Str>, proxy: Option<Str>, ignoreTlsErrors: bool)

  function LinkOf(c: SourceConfig, ignoreTlsErrors: bool): Link {
    Link(c.url, c.headers, c.proxy, ignoreTlsErrors)
  }

  predicate NeedsReconnect(previous: SourceConfig, next: SourceConfig) {
    previous.url != next.url || previous.headers != next.headers || previous.proxy != next.proxy
  }

  /** A source keeps its task over a reload: it had one, stays enabled, and nothing its
      connection depends on changes. */
  predicate Survives(hadTask: bool, previous: SourceConfig, next: SourceConfig, tlsChanged: bool) {
    hadTask && !previous.disabled && !tlsChanged && !NeedsReconnect(previous, next)
  }

  lemma SurvivesIf(hadTask: bool, previous: SourceConfig, next: SourceConfig, tlsChanged: bool)
    ensures Survives(hadTask, previous, next, tlsChanged) <==>
              && hadTask && !previous.disabled && !tlsChanged
              && previous.url == next.url && previous.headers == next.headers && previous.proxy == next.proxy
  {
  }

  class AppState {
    var sources: map<Str, SourceRuntime>
    var reconnect: ReconnectPolicy
    var dedup: DedupPolicy
    var channelCapacity: nat
    var adminToken: Str
    var userAgent: Str
    var ignoreTlsErrors: bool

    ghost function Runtimes(): (all: set<SourceRuntime>)
      reads this`sources
      ensures forall id <- sources :: sources[id] in all
    {
      sources.Values
    }

    /** The settings are in force: stored, with exactly the configured sources. */
    ghost predicate InForce(settings: Settings)
      reads this`reconnect, this`userAgent, this`ignoreTlsErrors, this`channelCapacity, this`sources
      reads Runtimes()`config
    {
      && reconnect == settings.reconnect && userAgent == settings.userAgent
      && ignoreTlsErrors == settings.ignoreTlsErrors && channelCapacity == settings.channelCapacity
      && sources.Keys == Ids(settings.sources)
      && forall i :: 0 <= i < |settings.sources| ==> sources[settings.sources[i].id].config == settings.sources[i]
    }

    lemma RuntimesAreValues()
      ensures Runtimes() == sources.Values
    {
    }

    /** Every runtime may publish: this is what the relay asks of a source. */
    ghost predicate Publishable()
      reads this`sources, Runtimes()`config
    {
      forall id <- sources :: CanPublish(sources[id].config.id, sources[id].capacity)
    }

    lemma InForceTls(settings: Settings)
      requires InForce(settings)
      ensures ignoreTlsErrors == settings.ignoreTlsErrors
    {
    }

    lemma PublishableHasRoom()
      ensures Publishable() ==> forall id <- sources :: sources[id].capacity > 0
    {
    }
  }

  /** A task of the supervisor, with a record of whether its loop has returned and of what it works
      from: the configuration it last copied at the top of its loop, and the parameters of its
      open connection. */
  class ManagedTask {
    const runtime: SourceRuntime
    var cancelled: bool
    var aborted: bool
    ghost var returned: bool
    ghost var snapshot: Option<SourceConfig>
    ghost var link: Option<Link>

    constructor (runtime: SourceRuntime)
      ensures this.runtime == runtime && Running() && snapshot == None && link == None
    {
      this.runtime := runtime;
      cancelled, aborted, returned := false, false, false;
      snapshot, link := None, None;
    }

    ghost predicate Running()
      reads this`cancelled, this`aborted, this`returned
    {
      !cancelled && !aborted && !returned
    }

    predicate Dismissed()
      reads this`cancelled, this`aborted
    {
      cancelled && aborted
    }

    /** Nothing the task works from differs from `c` and `ignoreTlsErrors` in a way that matters
        to its connection. */
    ghost predicate WorksUnder(c: SourceConfig, ignoreTlsErrors: bool)
      reads this`snapshot, this`link
    {
      && (snapshot.Some? ==> !NeedsReconnect(snapshot.value, c))
      && (link.Some? ==> link.value == LinkOf(c, ignoreTlsErrors))
    }

    lemma CarriesOver(previous: SourceConfig, next: SourceConfig, ignoreTlsErrors: bool)
      requires WorksUnder(previous, ignoreTlsErrors) && !NeedsReconnect(previous, next)
      ensures WorksUnder(next, ignoreTlsErrors)
    {
    }

    ghost predicate UpToDate(state: AppState)
      reads this`snapshot, this`link, runtime`config, state`ignoreTlsErrors
    {
      WorksUnder(runtime.config, state.ignoreTlsErrors)
    }

    ghost method TakeSnapshot()
      modifies this`snapshot, this`link
      ensures snapshot == Some(runtime.config) && link == None
    {
      snapshot, link := Some(runtime.config), None;
    }

    ghost method Connect(state: AppState)
      modifies this`link
      ensures link == if snapshot.Some? then Some(LinkOf(snapshot.value, state.ignoreTlsErrors)) else None
    {
      link := if snapshot.Some? then Some(LinkOf(snapshot.value, state.ignoreTlsErrors)) else None;
    }

    ghost method Disconnect()
      modifies this`link
      ensures link == None
    {
      link := None;
    }

    ghost method Return()
      requires cancelled
      modifies this`returned
      ensures returned
    {
      returned := true;
    }
  }

  datatype Step =
    | Snapshot(task: ManagedTask)
    | Connect(task: ManagedTask)
    | Drop(task: ManagedTask)
    | Return(task: ManagedTask, first: ReconnectPolicy, rounds: seq<Upstream.Round>)

  /** The loop of a task returns after these rounds; they show a cancellation only if its token is
      cancelled. */
  ghost predicate Returns(cancelled: bool, first: ReconnectPolicy, rounds: seq<Upstream.Round>) {
    Upstream.Run(first, rounds).stopped && (cancelled || forall r <- rounds :: !Upstream.Cancels(r))
  }

  /** Any steps of any of `tasks`, in any order, also of those that have been cancelled and aborted.
      None of them makes a task work from anything but what is configured at that moment, and
      only a cancelled task returns. */
  ghost method Interleave(state: AppState, tasks: set<ManagedTask>)
    modifies tasks`snapshot, tasks`link, tasks`returned
    ensures forall t <- tasks :: old(t.UpToDate(state)) ==> t.UpToDate(state)
    ensures forall t <- tasks :: !t.cancelled ==> t.returned == old(t.returned)
  {
    var schedule: seq<Step> := *;
    for i := 0 to |schedule|
      invariant forall t <- tasks :: old(t.UpToDate(state)) ==> t.UpToDate(state)
      invariant forall t <- tasks :: !t.cancelled ==> t.returned == old(t.returned)
    {
      if schedule[i].task in tasks {
        match schedule[i] {
          case Snapshot(t) => t.TakeSnapshot();
          case Connect(t) => t.Connect(state);
          case Drop(t) => t.Disconnect();
          case Return(t, first, rounds) =>
            if Returns(t.cancelled, first, rounds) {
              Backoff.ReturnsIffCancelled(first, rounds);
              t.Return();
            }
        }
      }
    }
  }

  /** The desired sources by id. */
  function Desired(sources: seq<SourceConfig>): (d: map<Str, SourceConfig>)
    ensures d.Keys == Ids(sources)
    ensures forall id <- d :: d[id].id == id && d[id] in sources
  {
    if sources == [] then map[]
    else
      var last := |sources| - 1;
      assert sources == sources[..last] + [sources[last]];
      Desired(sources[..last])[sources[last].id := sources[last]]
  }

  lemma DesiredHasEach(sources: seq<SourceConfig>, i: nat)
    requires DistinctIds(sources) && i < |sources|
    ensures Desired(sources)[sources[i].id] == sources[i]
  {
    var d := Desired(sources)[sources[i].id];
    var j :| 0 <= j < |sources| && sources[j] == d;
  }

  // ----- Views -----

  /** What a supervisor knows of one source: its runtime with the configuration in it, whether that
      is marked as disabled, its task, and whether that task runs and works under that
      configuration. */
  datatype View = View(
    runtime: Option<SourceRuntime>,
    config: Option<SourceConfig>,
    stopped: bool,
    task: Option<ManagedTask>,
    running: bool,
    current: bool)
  {
    /** Good enough for a reload to start from. */
    predicate Ready(tlsChanged: bool) {
      task.Some? ==> runtime.Some? && running && (!tlsChanged ==> current)
    }

    predicate SameObjects(v: View) {
      runtime == v.runtime && config == v.config && task == v.task
    }

    /** Just what `c` asks for. */
    predicate Realizes(c: SourceConfig) {
      && runtime.Some? && config == Some(c)
      && (task.Some? <==> !c.disabled)
      && (task.Some? ==> running && current)
      && (c.disabled ==> stopped)
    }
  }

  ghost function Objects<T>(o: Option<T>): set<T> {
    if o.Some? then {o.value} else {}
  }

  ghost function ViewFrom(runtime: Option<SourceRuntime>, task: Option<ManagedTask>, ignoreTlsErrors: bool): (v: View)
    reads Objects(runtime)`config, Objects(runtime)`state, Objects(runtime)`connectedSinceMs
    reads Objects(task)`cancelled, Objects(task)`aborted, Objects(task)`returned
    reads Objects(task)`snapshot, Objects(task)`link
    ensures v.runtime == runtime && v.task == task
    ensures v.config == if runtime.Some? then Some(runtime.value.config) else None
    ensures runtime.Some? ==> v.stopped == runtime.value.Stopped()
    ensures task.Some? ==> v.running == task.value.Running()
  {
    var config := if runtime.Some? then Some(runtime.value.config) else None;
    var stopped := runtime.Some? && runtime.value.Stopped();
    if task.None? then View(runtime, config, stopped, task, false, false)
    else
      View(runtime, config, stopped, task, task.value.Running(),
           config.Some? && task.value.WorksUnder(config.value, ignoreTlsErrors))
  }

  /** Nothing happened to a source, except that its task may have taken steps. */
  predicate Later(a: View, b: View) {
    && b.runtime == a.runtime && b.config == a.config && b.task == a.task
    && (a.stopped ==> b.stopped) && (a.running ==> b.running) && (a.current ==> b.current)
  }

  /** A reload to `c` keeps the runtime if there is one, and the task if and only if it survives. */
  predicate Retained(was: View, now: View, c: SourceConfig, tlsChanged: bool) {
    && (was.runtime.Some? ==> now.runtime == was.runtime)
    && (was.config.Some? && now.task.Some? ==>
          (now.task == was.task <==> Survives(was.task.Some?, was.config.value, c, tlsChanged)))
  }

  /** How far a reload to `c` has got with a source: not there yet, or done. */
  predicate Progress(was: View, now: View, c: SourceConfig, tlsChanged: bool, pending: bool) {
    if pending then Later(was, now) else now.Realizes(c) && Retained(was, now, c, tlsChanged)
  }

  lemma ProgressStarts(v: View, c: SourceConfig, tlsChanged: bool)
    ensures Progress(v, v, c, tlsChanged, true)
  {
  }

  lemma LaterIsReady(was: View, now: View, tlsChanged: bool)
    requires was.Ready(tlsChanged) && Later(was, now)
    ensures now.Ready(tlsChanged)
  {
  }

  lemma ProgressSince(was: View, mid: View, now: View, c: SourceConfig, tlsChanged: bool)
    requires Later(was, mid) && Progress(mid, now, c, tlsChanged, false)
    ensures Progress(was, now, c, tlsChanged, false)
  {
  }

  lemma RetainedSince(was: View, stored: View, now: View, c: SourceConfig, tlsChanged: bool)
    requires stored.SameObjects(was) && Progress(stored, now, c, tlsChanged, false)
    ensures now.Realizes(c) && Retained(was, now, c, tlsChanged)
  {
  }

  lemma ProgressIsReady(was: View, now: View, c: SourceConfig, tlsChanged: bool)
    requires was.Ready(tlsChanged) && Progress(was, now, c, tlsChanged, true)
    ensures now.Ready(tlsChanged)
  {
  }

  lemma ProgressKept(was: View, mid: View, now: View, c: SourceConfig, tlsChanged: bool, pending: bool)
    requires Progress(was, mid, c, tlsChanged, pending) && Later(mid, now)
    ensures Progress(was, now, c, tlsChanged, pending)
  {
  }

  lemma ProgressMade(was: View, mid: View, now: View, c: SourceConfig, tlsChanged: bool)
    requires Progress(was, mid, c, tlsChanged, true) && now.Realizes(c) && Retained(mid, now, c, tlsChanged)
    ensures Progress(was, now, c, tlsChanged, false)
  {
  }

  // ----- Objects -----

  /** `after` differs from `before` at most at `id`. */
  ghost predicate ChangedAt<T>(before: map<Str, T>, after: map<Str, T>, id: Str) {
    after == if id in after then before[id := after[id]] else before - {id}
  }

  /** Everything in `after` was already there for the same id or is of `added`. */
  ghost predicate SameOrNew<T>(before: map<Str, T>, after: map<Str, T>, added: set<T>) {
    forall id <- after :: (id in before && after[id] == before[id]) || after[id] in added
  }

  lemma SameOrNewOn<T>(before: map<Str, T>, mid: map<Str, T>, after: map<Str, T>, id: Str, added: set<T>, more: set<T>)
    requires SameOrNew(before, mid, added) && ChangedAt(mid, after, id) && added <= more
    requires id in after ==> (id in mid && after[id] == mid[id]) || after[id] in more
    ensures SameOrNew(before, after, more)
    ensures after.Keys <= mid.Keys + {id}
  {
  }

  lemma SameOrNewFrom<T>(before: map<Str, T>)
    ensures SameOrNew(before, before, {})
  {
  }

  lemma SameOrNewSince<T>(before: map<Str, T>, gone: set<Str>, after: map<Str, T>, added: set<T>)
    requires SameOrNew(before - gone, after, added)
    ensures SameOrNew(before, after, added)
  {
  }

  lemma SameOrNewWithin<T>(before: map<Str, T>, after: map<Str, T>, added: set<T>)
    requires SameOrNew(before, after, added)
    ensures after.Values <= before.Values + added
  {
  }

  /** The objects before a reload, and the configurations of the runtimes. */
  datatype Standing = Standing(
    sources: map<Str, SourceRuntime>,
    configs: map<Str, SourceConfig>,
    tasks: map<Str, ManagedTask>,
    spawned: set<ManagedTask>)

  ghost function EnabledIn(configs: map<Str, SourceConfig>): set<Str> {
    set id <- configs | !configs[id].disabled
  }

  /** What the loop over the desired sources started from, and the runtimes it has created. */
  datatype Trail = Trail(
    views: map<Str, View>,
    sources: map<Str, SourceRuntime>,
    tasks: map<Str, ManagedTask>,
    spawned: set<ManagedTask>,
    newSources: set<SourceRuntime>)

  // ----- Runs of reloads -----

  datatype ReloadError = LoadFailed | Rejected(error: ConfigError)

  /** Reloads that are carried through. */
  ghost predicate Accepted(proxyOk: Str -> bool, loaded: Option<Settings>) {
    loaded.Some? && ValidSettings(proxyOk, loaded.value)
  }

  /** The settings of the last reload that was carried through. */
  ghost function InEffect(proxyOk: Str -> bool, initial: Settings, script: seq<Option<Settings>>): Settings {
    if script == [] then initial
    else
      var last := |script| - 1;
      if Accepted(proxyOk, script[last]) then script[last].value else InEffect(proxyOk, initial, script[..last])
  }

  /** Source `id` is configured by every reload that is carried through. */
  ghost predicate Stays(proxyOk: Str -> bool, script: seq<Option<Settings>>, id: Str) {
    forall k :: 0 <= k < |script| && Accepted(proxyOk, script[k]) ==> id in Ids(script[k].value.sources)
  }

  lemma StaysSoFar(proxyOk: Str -> bool, script: seq<Option<Settings>>, id: Str)
    requires script != [] && Stays(proxyOk, script, id)
    ensures Stays(proxyOk, script[..|script| - 1], id)
    ensures Accepted(proxyOk, script[|script| - 1]) ==> id in Ids(script[|script| - 1].value.sources)
  {
  }

  lemma AllDistinct(proxyOk: Str -> bool, settings: Settings)
    requires ValidSettings(proxyOk, settings)
    ensures DistinctIds(settings.sources)
  {
  }

  // ----- The supervisor -----

  class SourceSupervisor {
    var tasks: map<Str, ManagedTask>
    ghost var spawned: set<ManagedTask>  // every task there ever was

    constructor ()
      ensures tasks == map[] && spawned == {}
    {
      tasks := map[];
      spawned := {};
    }

    function Tasks(): (all: set<ManagedTask>)
      reads this`tasks
      ensures forall id <- tasks :: tasks[id] in all
    {
      tasks.Values
    }

    /** Runtimes know their ids, and every task belongs to the runtime of its source. */
    ghost predicate Matched(state: AppState)
      reads this`tasks, state`sources, state.Runtimes()`config
    {
      && (forall id <- state.sources :: state.sources[id].config.id == id)
      && (forall id <- tasks :: id in state.sources && tasks[id].runtime == state.sources[id])
    }

    ghost function ViewUnder(state: AppState, id: Str, ignoreTlsErrors: bool): View
      reads this`tasks, state`sources, state.Runtimes(), Tasks()
    {
      ViewFrom(if id in state.sources then Some(state.sources[id]) else None,
               if id in tasks then Some(tasks[id]) else None,
               ignoreTlsErrors)
    }

    /** What there is for source `id`. */
    ghost function ViewOf(state: AppState, id: Str): View
      reads this`tasks, state`sources, state`ignoreTlsErrors, state.Runtimes(), Tasks()
    {
      ViewUnder(state, id, state.ignoreTlsErrors)
    }

    /** Every task there ever was is either still in place or cancelled and aborted. */
    ghost predicate Accounted()
      reads this, spawned`cancelled, spawned`aborted
    {
      && (forall id <- tasks :: tasks[id] in spawned)
      && (forall t <- spawned :: t in Tasks() || t.Dismissed())
    }

    /** Exactly the enabled sources have a task, and each task runs, for its source's runtime, on
        what is configured. No other task is left to itself. */
    ghost predicate Valid(state: AppState)
      reads this, state`sources, state`ignoreTlsErrors, state.Runtimes(), Tasks(), spawned
    {
      && Matched(state) && Accounted()
      && forall id <- state.sources :: ViewOf(state, id).Realizes(state.sources[id].config)
    }

    /** Nothing happened to source `id`. */
    twostate predicate Kept(state: AppState, id: Str)
      reads this, state, state.Runtimes(), Tasks()
      ensures Kept(state, id) ==> ViewOf(state, id) == old(ViewOf(state, id))
    {
      && state.ignoreTlsErrors == old(state.ignoreTlsErrors)
      && (id in state.sources <==> id in old(state.sources)) && (id in tasks <==> id in old(tasks))
      && (id in state.sources ==>
            && state.sources[id] == old(state.sources)[id]
            && state.sources[id].config == old(state.sources[id].config)
            && state.sources[id].Stopped() == old(state.sources[id].Stopped()))
      && (id in tasks ==>
            && tasks[id] == old(tasks)[id]
            && tasks[id].Running() == old(tasks[id].Running())
            && tasks[id].snapshot == old(tasks[id].snapshot) && tasks[id].link == old(tasks[id].link))
    }

    lemma UnfoldView(state: AppState, id: Str)
      ensures ViewOf(state, id) ==
              ViewFrom(if id in state.sources then Some(state.sources[id]) else None,
                       if id in tasks then Some(tasks[id]) else None,
                       state.ignoreTlsErrors)
    {
    }

    /** The task of source `id`, if it has one. */
    ghost function TaskOf(id: Str): set<ManagedTask>
      reads this`tasks
    {
      if id in tasks then {tasks[id]} else {}
    }

    ghost function RuntimeOf(state: AppState, id: Str): set<SourceRuntime>
      reads state`sources
    {
      if id in state.sources then {state.sources[id]} else {}
    }

    method StopTask(id: Str)
      requires Accounted()
      modifies this`tasks
      modifies TaskOf(id)`cancelled
      modifies TaskOf(id)`aborted
      ensures Accounted()
      ensures tasks == old(tasks) - {id}
      ensures id in old(tasks) ==> old(tasks)[id].Dismissed()
    {
      if id in tasks {
        var task := tasks[id];
        tasks := tasks - {id};
        task.cancelled := true;
        task.aborted := true;
        forall t | t in spawned && !t.Dismissed()
          ensures t in Tasks()
        {
          ghost var other :| other in old(tasks) && old(tasks)[other] == t;
          assert tasks[other] == t;
        }
      } else {
        assert tasks == tasks - {id};
      }
    }

    method Install(id: Str, runtime: SourceRuntime)
      requires Accounted() && id !in tasks
      modifies this`tasks, this`spawned
      ensures Accounted()
      ensures id in tasks && fresh(tasks[id]) && tasks == old(tasks)[id := tasks[id]]
      ensures spawned == old(spawned) + {tasks[id]}
      ensures tasks[id].runtime == runtime && tasks[id].Running()
      ensures tasks[id].snapshot == None && tasks[id].link == None
    {
      var task := new ManagedTask(runtime);
      tasks := tasks[id := task];
      spawned := spawned + {task};
      forall t | t in old(Tasks())
        ensures t in Tasks()
      {
        ghost var other :| other in old(tasks) && old(tasks)[other] == t;
        assert tasks[other] == t;
      }
    }

    lemma OthersTasks(state: AppState, id: Str)
      requires Matched(state)
      ensures forall other <- tasks :: other != id ==> tasks[other] !in TaskOf(id)
    {
      forall other | other in tasks && other != id
        ensures tasks[other] !in TaskOf(id)
      {
        assert state.sources[other].config.id == other;
      }
    }

    lemma MatchedWith(state: AppState, before: map<Str, ManagedTask>, id: Str)
      requires id in tasks && tasks == before[id := tasks[id]]
      requires id in state.sources && tasks[id].runtime == state.sources[id]
      requires forall other <- state.sources :: state.sources[other].config.id == other
      requires forall other <- before :: other in state.sources && before[other].runtime == state.sources[other]
      ensures Matched(state)
    {
    }

    lemma FreshTaskRealizes(state: AppState, id: Str)
      requires id in state.sources && !state.sources[id].config.disabled
      requires id in tasks && tasks[id].Running() && tasks[id].snapshot == None && tasks[id].link == None
      ensures ViewOf(state, id).Realizes(state.sources[id].config)
    {
    }

    lemma TasksAreDistinct(state: AppState)
      requires Matched(state)
      ensures forall a, b :: a in tasks && b in tasks && tasks[a] == tasks[b] ==> a == b
      ensures forall id <- state.sources :: state.sources[id].config.id == id
      ensures forall id <- tasks :: id in state.sources && tasks[id].runtime == state.sources[id]
    {
      forall a, b | a in tasks && b in tasks && tasks[a] == tasks[b]
        ensures a == b
      {
        assert state.sources[a] == state.sources[b];
      }
    }

    method SpawnTask(state: AppState, id: Str, runtime: SourceRuntime)
      requires Matched(state) && Accounted()
      requires id in state.sources && state.sources[id] == runtime && !runtime.config.disabled
      modifies this`tasks, this`spawned
      modifies TaskOf(id)`cancelled
      modifies TaskOf(id)`aborted
      ensures Matched(state) && Accounted()
      ensures id in tasks && fresh(tasks[id]) && tasks == old(tasks)[id := tasks[id]]
      ensures spawned == old(spawned) + {tasks[id]}
      ensures ViewOf(state, id).Realizes(runtime.config)
      ensures forall other: Str :: other != id ==> ViewOf(state, other) == old(ViewOf(state, other))
      ensures id in old(tasks) ==> old(tasks)[id].Dismissed()
    {
      hide Tasks, AppState.Runtimes, Utf8.Valid, ViewOf, View.Realizes, ManagedTask.WorksUnder, Accounted,
        Matched;
      ghost var before := tasks;
      TasksAreDistinct(state);
      OthersTasks(state, id);
      StopTask(id);
      Install(id, runtime);
      FreshTaskRealizes(state, id);
      MatchedWith(state, before, id);
      forall other: Str | other != id
        ensures ViewOf(state, other) == old(ViewOf(state, other))
      {
        if other in tasks {
          ghost var t := before[other];
          assert tasks[other] == t && t !in old(TaskOf(id));
          assert t.Running() == old(t.Running()) && t.snapshot == old(t.snapshot) && t.link == old(t.link);
        }
        assert Kept(state, other);
      }
    }

    method AddSource(state: AppState, source: SourceConfig)
      requires Matched(state) && Accounted() && source.id !in state.sources
      modifies this`tasks, this`spawned, state`sources
      ensures Matched(state) && Accounted()
      ensures source.id in state.sources && fresh(state.sources[source.id])
      ensures state.sources == old(state.sources)[source.id := state.sources[source.id]]
      ensures state.sources[source.id].sequence == 0
      ensures state.sources[source.id].capacity == state.channelCapacity
      ensures tasks == if source.id in tasks then old(tasks)[source.id := tasks[source.id]] else old(tasks)
      ensures source.id in tasks ==> fresh(tasks[source.id])
      ensures spawned == old(spawned) + TaskOf(source.id)
      ensures ViewOf(state, source.id).Realizes(source)
      ensures forall id: Str :: id != source.id ==> ViewOf(state, id) == old(ViewOf(state, id))
    {
      hide Tasks, AppState.Runtimes, Utf8.Valid, ViewOf, Accounted;
      var runtime := new SourceRuntime(source, state.channelCapacity);
      state.sources := state.sources[source.id := runtime];
      if source.disabled {
        runtime.SetDisabled();
      }
      UnfoldView(state, source.id);
      forall id: Str | id != source.id
        ensures ViewOf(state, id) == old(ViewOf(state, id))
      {
        assert Kept(state, id);
      }
      if !source.disabled {
        SpawnTask(state, source.id, runtime);
      }
    }

    /** Any steps of any task there ever was. */
    ghost method LetTasksRun(state: AppState)
      requires Matched(state) && Accounted()
      modifies spawned`snapshot, spawned`link, spawned`returned
      ensures Matched(state) && Accounted()
      ensures forall id: Str :: Later(old(ViewOf(state, id)), ViewOf(state, id))
    {
      hide Tasks, AppState.Runtimes, Utf8.Valid, ManagedTask.WorksUnder;
      Interleave(state, spawned);
      forall id: Str
        ensures Later(old(ViewOf(state, id)), ViewOf(state, id))
      {
        if id in tasks {
          assert old(tasks[id].UpToDate(state)) ==> tasks[id].UpToDate(state);
        }
      }
    }

    lemma OthersRuntimes(state: AppState, id: Str)
      requires Matched(state) && id in state.sources
      ensures forall other <- state.sources :: other != id ==> state.sources[other] != state.sources[id]
    {
    }

    method Configure(state: AppState, source: SourceConfig)
      requires Matched(state) && source.id in state.sources
      modifies {state.sources[source.id]}`config
      ensures Matched(state) && state.sources[source.id].config == source
      ensures forall id: Str :: id != source.id ==> ViewOf(state, id) == old(ViewOf(state, id))
      ensures var was := old(ViewOf(state, source.id));
              && ViewOf(state, source.id) == was.(config := Some(source), current := ViewOf(state, source.id).current)
              && (was.current && !NeedsReconnect(was.config.value, source) ==> ViewOf(state, source.id).current)
    {
      hide Tasks, AppState.Runtimes, Utf8.Valid, NeedsReconnect, ManagedTask.WorksUnder, ViewOf;
      var runtime := state.sources[source.id];
      UnfoldView(state, source.id);
      OthersRuntimes(state, source.id);
      if ViewOf(state, source.id).current && !NeedsReconnect(runtime.config, source) && source.id in tasks {
        tasks[source.id].CarriesOver(runtime.config, source, state.ignoreTlsErrors);
      }
      runtime.UpdateConfig(source);
      UnfoldView(state, source.id);
      forall id: Str | id != source.id
        ensures ViewOf(state, id) == old(ViewOf(state, id))
      {
        assert Kept(state, id);
      }
    }

    method DisableSource(state: AppState, id: Str, runtime: SourceRuntime)
      requires Matched(state) && Accounted()
      requires id in state.sources && state.sources[id] == runtime && runtime.config.disabled
      modifies this`tasks, runtime`state, runtime`connectedSinceMs
      modifies TaskOf(id)`cancelled
      modifies TaskOf(id)`aborted
      ensures Matched(state) && Accounted()
      ensures tasks == old(tasks) - {id}
      ensures ViewOf(state, id).Realizes(runtime.config)
      ensures forall other: Str :: other != id ==> ViewOf(state, other) == old(ViewOf(state, other))
      ensures id in old(tasks) ==> old(tasks)[id].Dismissed()
    {
      hide Tasks, AppState.Runtimes, Utf8.Valid, ViewOf, Accounted;
      OthersTasks(state, id);
      OthersRuntimes(state, id);
      StopTask(id);
      runtime.SetDisabled();
      UnfoldView(state, id);
      forall other: Str | other != id
        ensures ViewOf(state, other) == old(ViewOf(state, other))
      {
        assert Kept(state, other);
      }
    }

    /** Stops, restarts, starts or keeps the task of a source whose runtime already has its new
        configuration. */
    method Settle(state: AppState, previous: SourceConfig, source: SourceConfig, tlsChanged: bool)
      requires Matched(state) && Accounted()
      requires source.id in state.sources && state.sources[source.id].config == source
      requires source.id in tasks ==>
                 && tasks[source.id].Running()
                 && (Survives(true, previous, source, tlsChanged) ==> ViewOf(state, source.id).current)
      modifies this`tasks, this`spawned
      modifies {state.sources[source.id]}`state
      modifies {state.sources[source.id]}`connectedSinceMs
      modifies TaskOf(source.id)`cancelled
      modifies TaskOf(source.id)`aborted
      ensures Matched(state) && Accounted()
      ensures ViewOf(state, source.id).Realizes(source)
      ensures forall id: Str :: id != source.id ==> ViewOf(state, id) == old(ViewOf(state, id))
      ensures source.id in tasks ==>
                && tasks == old(tasks)[source.id := tasks[source.id]]
                && if Survives(source.id in old(tasks), previous, source, tlsChanged)
                   then tasks[source.id] == old(tasks)[source.id]
                   else fresh(tasks[source.id])
      ensures source.id in old(tasks) && source.id in tasks ==>
                (tasks[source.id] == old(tasks)[source.id] <==>
                   && !previous.disabled && !tlsChanged
                   && previous.url == source.url && previous.headers == source.headers
                   && previous.proxy == source.proxy)
      ensures source.id !in tasks ==> tasks == old(tasks) - {source.id}
      ensures source.id in old(tasks) && (source.id in tasks ==> tasks[source.id] != old(tasks)[source.id]) ==>
                old(tasks)[source.id].Dismissed()
      ensures old(spawned) <= spawned <= old(spawned) + TaskOf(source.id)
    {
      hide Tasks, AppState.Runtimes, Utf8.Valid, NeedsReconnect, ViewOf, Accounted;
      SurvivesIf(source.id in tasks, previous, source, tlsChanged);
      var id, runtime := source.id, state.sources[source.id];
      UnfoldView(state, id);
      if source.disabled {
        DisableSource(state, id, runtime);
        return;
      }
      if !previous.disabled && (NeedsReconnect(previous, source) || tlsChanged) {
        SpawnTask(state, id, runtime);
      } else if previous.disabled || id !in tasks {
        SpawnTask(state, id, runtime);
      } else {
        assert tasks == tasks[id := tasks[id]];
      }
    }

    method RemoveSource(state: AppState, id: Str)
      requires Accounted() && id in tasks
      modifies this`tasks, state`sources, {tasks[id]}`cancelled, {tasks[id]}`aborted
      ensures Accounted()
      ensures tasks == old(tasks) - {id} && state.sources == old(state.sources) - {id}
      ensures old(tasks)[id].Dismissed()
    {
      StopTask(id);
      state.sources := state.sources - {id};
    }

    /** Removes the sources whose tasks are no longer wanted, in any order. */
    method RemoveTasks(state: AppState, unwanted: set<Str>)
      requires Accounted() && unwanted <= tasks.Keys
      requires forall a, b :: a in tasks && b in tasks && tasks[a] == tasks[b] ==> a == b
      modifies this`tasks, state`sources, Tasks()`cancelled, Tasks()`aborted
      ensures Accounted()
      ensures tasks == old(tasks) - unwanted && state.sources == old(state.sources) - unwanted
      ensures forall id <- old(tasks) ::
                var t := old(tasks)[id];
                if id in unwanted then t.Dismissed()
                else t.cancelled == old(t.cancelled) && t.aborted == old(t.aborted)
    {
      hide Tasks, AppState.Runtimes, Utf8.Valid, Accounted;
      ghost var all, removed := tasks, {};
      var todo := unwanted;
      while todo != {}
        invariant Accounted()
        invariant todo !! removed && todo + removed == unwanted
        invariant tasks == all - removed && state.sources == old(state.sources) - removed
        invariant forall id <- all ::
                    var t := all[id];
                    if id in removed then t.Dismissed()
                    else t.cancelled == old(t.cancelled) && t.aborted == old(t.aborted)
        decreases todo
      {
        var id :| id in todo;
        todo, removed := todo - {id}, removed + {id};
        RemoveSource(state, id);
      }
    }

    lemma StillMatched(state: AppState, allSources: map<Str, SourceRuntime>, allTasks: map<Str, ManagedTask>,
                       wanted: set<Str>)
      requires state.sources == allSources - (allSources.Keys - wanted) && tasks == allTasks - (allTasks.Keys - wanted)
      requires forall id <- allSources :: allSources[id].config.id == id
      requires forall id <- allTasks :: id in allSources && allTasks[id].runtime == allSources[id]
      ensures Matched(state)
    {
    }

    /** The part of `apply` that forgets what is not configured any more: first through the
        tasks, then whatever runtimes are left. */
    method RemoveUnwanted(state: AppState, wanted: set<Str>)
      requires Matched(state) && Accounted()
      modifies this`tasks, state`sources, Tasks()`cancelled, Tasks()`aborted
      ensures Matched(state) && Accounted()
      ensures state.sources == old(state.sources) - (old(state.sources).Keys - wanted)
      ensures tasks == old(tasks) - (old(tasks).Keys - wanted)
      ensures forall id <- wanted :: ViewOf(state, id) == old(ViewOf(state, id))
      ensures forall id <- old(tasks) :: id !in wanted ==> old(tasks)[id].Dismissed()
    {
      hide Tasks, AppState.Runtimes, Utf8.Valid, ViewOf, ViewFrom, Matched, Accounted;
      ghost var allSources, allTasks := state.sources, tasks;
      TasksAreDistinct(state);
      RemoveTasks(state, tasks.Keys - wanted);
      state.sources := state.sources - (state.sources.Keys - wanted);
      forall id | id in wanted
        ensures ViewOf(state, id) == old(ViewOf(state, id))
      {
        assert id in tasks <==> id in allTasks;
        assert id in state.sources <==> id in allSources;
        if id in tasks {
          ghost var t := allTasks[id];
          assert tasks[id] == t && t.cancelled == old(t.cancelled) && t.aborted == old(t.aborted);
          assert t.returned == old(t.returned) && t.snapshot == old(t.snapshot) && t.link == old(t.link);
        }
        if id in state.sources {
          ghost var r := allSources[id];
          assert state.sources[id] == r && r.config == old(r.config) && r.Stopped() == old(r.Stopped());
        }
        assert Kept(state, id);
      }
      StillMatched(state, allSources, allTasks, wanted);
    }

    /** The loop body of `apply` for one desired source. Tasks may take steps between the update
        of the runtime and the decision about its task. */
    method Reconcile(state: AppState, source: SourceConfig, tlsChanged: bool)
      requires Matched(state) && Accounted() && ViewOf(state, source.id).Ready(tlsChanged)
      modifies this`tasks, this`spawned, state`sources
      modifies RuntimeOf(state, source.id)`config
      modifies RuntimeOf(state, source.id)`state
      modifies RuntimeOf(state, source.id)`connectedSinceMs
      modifies TaskOf(source.id)`cancelled
      modifies TaskOf(source.id)`aborted
      modifies spawned`snapshot, spawned`link, spawned`returned
      ensures Matched(state) && Accounted()
      ensures ViewOf(state, source.id).Realizes(source)
      ensures Retained(old(ViewOf(state, source.id)), ViewOf(state, source.id), source, tlsChanged)
      ensures forall id: Str :: id != source.id ==> Later(old(ViewOf(state, id)), ViewOf(state, id))
      ensures source.id in state.sources && state.sources == old(state.sources)[source.id := state.sources[source.id]]
      ensures source.id !in old(state.sources) ==>
                fresh(state.sources[source.id]) && state.sources[source.id].capacity == state.channelCapacity
      ensures tasks == if source.id in tasks then old(tasks)[source.id := tasks[source.id]]
                       else old(tasks) - {source.id}
      ensures source.id in tasks ==>
                fresh(tasks[source.id]) || (source.id in old(tasks) && tasks[source.id] == old(tasks)[source.id])
      ensures source.id in old(tasks) ==>
                || (source.id in tasks && tasks[source.id] == old(tasks)[source.id])
                || old(tasks)[source.id].Dismissed()
      ensures old(spawned) <= spawned <= old(spawned) + TaskOf(source.id)
    {
      hide Tasks, AppState.Runtimes, Utf8.Valid, ViewFrom, NeedsReconnect, Matched, Accounted;
      if source.id in state.sources {
        var previous := state.sources[source.id].config;
        Configure(state, source);
        LetTasksRun(state);
        Settle(state, previous, source, tlsChanged);
      } else {
        AddSource(state, source);
      }
    }

    method ReconcileStep(state: AppState, desired: map<Str, SourceConfig>, id: Str, tlsChanged: bool,
                         ghost todo: set<Str>, ghost was: map<Str, View>)
      requires Matched(state) && Accounted()
      requires id in todo && id in desired && desired[id].id == id && was.Keys == desired.Keys
      requires was[id].Ready(tlsChanged)
      requires forall other <- desired ::
                 Progress(was[other], ViewOf(state, other), desired[other], tlsChanged, other in todo)
      modifies this`tasks, this`spawned, state`sources
      modifies RuntimeOf(state, id)`config
      modifies RuntimeOf(state, id)`state
      modifies RuntimeOf(state, id)`connectedSinceMs
      modifies TaskOf(id)`cancelled
      modifies TaskOf(id)`aborted
      modifies spawned`snapshot, spawned`link, spawned`returned
      ensures Matched(state) && Accounted()
      ensures forall other <- desired ::
                Progress(was[other], ViewOf(state, other), desired[other], tlsChanged, other in todo - {id})
      ensures ChangedAt(old(state.sources), state.sources, id) && id in state.sources
      ensures old(RuntimeOf(state, id)) <= RuntimeOf(state, id)
      ensures fresh(RuntimeOf(state, id) - old(RuntimeOf(state, id)))
      ensures forall r <- RuntimeOf(state, id) - old(RuntimeOf(state, id)) :: r.capacity == state.channelCapacity
      ensures ChangedAt(old(tasks), tasks, id) && fresh(TaskOf(id) - old(TaskOf(id)))
      ensures old(spawned) <= spawned <= old(spawned) + TaskOf(id)
    {
      hide Tasks, AppState.Runtimes, Utf8.Valid, NeedsReconnect, ViewFrom, Matched, Accounted, Progress, View.Ready;
      ProgressIsReady(was[id], ViewOf(state, id), desired[id], tlsChanged);
      Reconcile(state, desired[id], tlsChanged);
      forall other | other in desired
        ensures Progress(was[other], ViewOf(state, other), desired[other], tlsChanged, other in todo - {id})
      {
        var mid, now := old(ViewOf(state, other)), ViewOf(state, other);
        if other == id {
          ProgressMade(was[id], mid, now, desired[id], tlsChanged);
        } else {
          ProgressKept(was[other], mid, now, desired[other], tlsChanged, other in todo);
        }
      }
    }

    /** The loop's objects are those it started from or created since. */
    ghost predicate OnTrail(state: AppState, trail: Trail)
      reads this, state
    {
      && SameOrNew(trail.sources, state.sources, trail.newSources)
      && trail.spawned <= spawned
      && SameOrNew(trail.tasks, tasks, spawned - trail.spawned)
    }

    lemma TaskIsSpawned(id: Str)
      requires Accounted()
      ensures TaskOf(id) <= spawned
    {
    }

    /** One round of the loop, with the record of what became of which object. */
    method ReconcileTracked(state: AppState, desired: map<Str, SourceConfig>, id: Str, tlsChanged: bool,
                            ghost todo: set<Str>, ghost trail: Trail)
      returns (ghost more: set<SourceRuntime>)
      requires Matched(state) && Accounted() && OnTrail(state, trail)
      requires id in todo && id in desired && desired[id].id == id && trail.views.Keys == desired.Keys
      requires trail.views[id].Ready(tlsChanged)
      requires forall other <- desired ::
                 Progress(trail.views[other], ViewOf(state, other), desired[other], tlsChanged, other in todo)
      modifies this`tasks, this`spawned, state`sources
      modifies state.Runtimes()`config, state.Runtimes()`state, state.Runtimes()`connectedSinceMs
      modifies Tasks()`cancelled, Tasks()`aborted
      modifies spawned`snapshot, spawned`link, spawned`returned
      ensures Matched(state) && Accounted()
      ensures state.sources.Keys <= old(state.sources.Keys) + {id} && tasks.Keys <= old(tasks.Keys) + {id}
      ensures forall other <- desired ::
                Progress(trail.views[other], ViewOf(state, other), desired[other], tlsChanged, other in todo - {id})
      ensures fresh(more) && forall r <- more :: r.capacity == state.channelCapacity
      ensures old(spawned) <= spawned && fresh(spawned - old(spawned))
      ensures OnTrail(state, trail.(newSources := trail.newSources + more))
    {
      hide Tasks, AppState.Runtimes, Utf8.Valid, NeedsReconnect, ViewFrom, Matched, Accounted, Progress, View.Ready,
        SameOrNew, ChangedAt, SourceSupervisor.ViewOf;
      ghost var sources, own, rs, ts, known := state.sources, tasks, RuntimeOf(state, id), TaskOf(id), spawned;
      TaskIsSpawned(id);
      ReconcileStep(state, desired, id, tlsChanged, todo, trail.views);
      TaskIsSpawned(id);
      more := RuntimeOf(state, id) - rs;
      SameOrNewOn(trail.sources, sources, state.sources, id, trail.newSources, trail.newSources + more);
      SameOrNewOn(trail.tasks, own, tasks, id, known - trail.spawned, spawned - trail.spawned);
    }

    /** The loop of `apply` over the desired sources, in any order. */
    method ReconcileAll(state: AppState, desired: map<Str, SourceConfig>, tlsChanged: bool)
      returns (ghost newSources: set<SourceRuntime>)
      requires Matched(state) && Accounted() && forall id <- desired :: desired[id].id == id
      requires state.sources.Keys <= desired.Keys && tasks.Keys <= desired.Keys
      requires forall id <- desired :: ViewOf(state, id).Ready(tlsChanged)
      modifies this`tasks, this`spawned, state`sources
      modifies state.Runtimes()`config, state.Runtimes()`state, state.Runtimes()`connectedSinceMs
      modifies Tasks()`cancelled, Tasks()`aborted
      modifies spawned`snapshot, spawned`link, spawned`returned
      ensures Matched(state) && Accounted()
      ensures state.sources.Keys <= desired.Keys && tasks.Keys <= desired.Keys
      ensures forall id <- desired ::
                Progress(old(ViewOf(state, id)), ViewOf(state, id), desired[id], tlsChanged, false)
      ensures fresh(newSources) && forall r <- newSources :: r.capacity == state.channelCapacity
      ensures SameOrNew(old(state.sources), state.sources, newSources)
      ensures old(spawned) <= spawned && fresh(spawned - old(spawned))
      ensures SameOrNew(old(tasks), tasks, spawned - old(spawned))
    {
      hide Utf8.Valid, NeedsReconnect, ViewFrom, Matched, Accounted, Progress, View.Ready, SameOrNew,
        SourceSupervisor.ViewOf;
      ghost var was := map id <- desired :: ViewOf(state, id);
      forall id | id in desired {
        ProgressStarts(was[id], desired[id], tlsChanged);
      }
      SameOrNewFrom(state.sources);
      SameOrNewFrom(tasks);
      newSources := {};
      ghost var trail := Trail(was, state.sources, tasks, spawned, {});
      assert spawned - spawned == {};
      var todo := desired.Keys;
      while todo != {}
        invariant todo <= desired.Keys && state.sources.Keys <= desired.Keys && tasks.Keys <= desired.Keys
        invariant Matched(state) && Accounted()
        invariant forall id <- desired :: Progress(was[id], ViewOf(state, id), desired[id], tlsChanged, id in todo)
        invariant fresh(newSources) && forall r <- newSources :: r.capacity == state.channelCapacity
        invariant fresh(spawned - old(spawned))
        invariant trail == Trail(was, old(state.sources), old(tasks), old(spawned), newSources)
        invariant OnTrail(state, trail)
        decreases todo
      {
        var id :| id in todo;
        SameOrNewWithin(trail.sources, state.sources, newSources);
        SameOrNewWithin(trail.tasks, tasks, spawned - trail.spawned);
        ghost var more := ReconcileTracked(state, desired, id, tlsChanged, todo, trail);
        newSources := newSources + more;
        trail := trail.(newSources := newSources);
        todo := todo - {id};
      }
    }

    /** `apply` once the new settings are stored: forget, then reconcile. */
    method ApplySources(state: AppState, desired: map<Str, SourceConfig>, tlsChanged: bool)
      returns (ghost newSources: set<SourceRuntime>)
      requires Matched(state) && Accounted() && forall id <- desired :: desired[id].id == id
      requires forall id <- desired :: ViewOf(state, id).Ready(tlsChanged)
      modifies this`tasks, this`spawned, state`sources
      modifies state.Runtimes()`config, state.Runtimes()`state, state.Runtimes()`connectedSinceMs
      modifies Tasks()`cancelled, Tasks()`aborted
      modifies spawned`snapshot, spawned`link, spawned`returned
      ensures Matched(state) && Accounted()
      ensures state.sources.Keys <= desired.Keys && tasks.Keys <= desired.Keys
      ensures forall id <- desired ::
                Progress(old(ViewOf(state, id)), ViewOf(state, id), desired[id], tlsChanged, false)
      ensures fresh(newSources) && forall r <- newSources :: r.capacity == state.channelCapacity
      ensures SameOrNew(old(state.sources), state.sources, newSources)
      ensures old(spawned) <= spawned && fresh(spawned - old(spawned))
      ensures SameOrNew(old(tasks), tasks, spawned - old(spawned))
    {
      hide Utf8.Valid, NeedsReconnect, ViewFrom, Matched, Accounted, Progress, View.Ready, SameOrNew,
        SourceSupervisor.ViewOf;
      ghost var sources, own := state.sources, tasks;
      LetTasksRun(state);
      RemoveUnwanted(state, desired.Keys);
      label removed:
      forall id | id in desired
        ensures ViewOf(state, id).Ready(tlsChanged)
      {
        LaterIsReady(old(ViewOf(state, id)), ViewOf(state, id), tlsChanged);
      }
      newSources := ReconcileAll(state, desired, tlsChanged);
      SameOrNewSince(sources, sources.Keys - desired.Keys, state.sources, newSources);
      SameOrNewSince(own, own.Keys - desired.Keys, tasks, spawned - old(spawned));
      forall id | id in desired
        ensures Progress(old(ViewOf(state, id)), ViewOf(state, id), desired[id], tlsChanged, false)
      {
        var was, mid, now := old(ViewOf(state, id)), old@removed(ViewOf(state, id)), ViewOf(state, id);
        ProgressSince(was, mid, now, desired[id], tlsChanged);
      }
    }

    lemma ViewsAreReady(state: AppState)
      requires Valid(state)
      ensures forall id: Str :: ViewUnder(state, id, state.ignoreTlsErrors).Ready(false)
    {
      hide ViewFrom, Utf8.Valid;
      forall id: Str
        ensures ViewUnder(state, id, state.ignoreTlsErrors).Ready(false)
      {
        if id in state.sources {
          assert ViewOf(state, id).Realizes(state.sources[id].config);
        }
      }
    }

    /** The TLS setting makes no difference to which objects there are, nor to what runs. */
    lemma TlsLeavesObjects(state: AppState, was: bool, now: bool)
      ensures forall id: Str ::
                && ViewUnder(state, id, now).SameObjects(ViewUnder(state, id, was))
                && (ViewUnder(state, id, was).Ready(false) ==> ViewUnder(state, id, now).Ready(was != now))
    {
      hide Utf8.Valid, ManagedTask.WorksUnder;
    }

    lemma ValidIsMatched(state: AppState)
      requires Valid(state)
      ensures Matched(state) && Accounted()
    {
    }

    /** Stores the settings that tasks read for themselves. */
    method StoreSettings(state: AppState, settings: Settings) returns (tlsChanged: bool)
      requires Valid(state)
      modifies state`reconnect, state`userAgent, state`ignoreTlsErrors, state`channelCapacity
      ensures tlsChanged == (settings.ignoreTlsErrors != old(state.ignoreTlsErrors))
      ensures state.reconnect == settings.reconnect && state.userAgent == settings.userAgent
      ensures state.ignoreTlsErrors == settings.ignoreTlsErrors && state.channelCapacity == settings.channelCapacity
      ensures Matched(state) && Accounted()
      ensures forall id: Str ::
                ViewOf(state, id).Ready(tlsChanged) && ViewOf(state, id).SameObjects(old(ViewOf(state, id)))
    {
      hide Tasks, AppState.Runtimes, Utf8.Valid, Valid, Matched, Accounted, ViewFrom, View.Ready, View.SameObjects;
      ValidIsMatched(state);
      ViewsAreReady(state);
      TlsLeavesObjects(state, state.ignoreTlsErrors, settings.ignoreTlsErrors);
      state.reconnect := settings.reconnect;
      state.userAgent := settings.userAgent;
      tlsChanged := state.ignoreTlsErrors != settings.ignoreTlsErrors;
      state.ignoreTlsErrors := settings.ignoreTlsErrors;
      if settings.channelCapacity != state.channelCapacity {
        state.channelCapacity := settings.channelCapacity;
      }
      forall id: Str
        ensures ViewOf(state, id).Ready(tlsChanged) && ViewOf(state, id).SameObjects(old(ViewOf(state, id)))
      {
        assert ViewUnder(state, id, settings.ignoreTlsErrors) == old(ViewUnder(state, id, settings.ignoreTlsErrors));
      }
    }

    /** `apply` once the settings have been found valid. */
    method ApplyValid(state: AppState, settings: Settings, ghost desired: map<Str, SourceConfig>)
      returns (ghost newSources: set<SourceRuntime>)
      requires Valid(state) && desired == Desired(settings.sources)
      modifies this`tasks, this`spawned
      modifies state`reconnect, state`userAgent, state`ignoreTlsErrors, state`channelCapacity, state`sources
      modifies state.Runtimes()`config, state.Runtimes()`state, state.Runtimes()`connectedSinceMs
      modifies Tasks()`cancelled, Tasks()`aborted
      modifies spawned`snapshot, spawned`link, spawned`returned
      ensures Matched(state) && Accounted()
      ensures state.sources.Keys <= desired.Keys && tasks.Keys <= desired.Keys
      ensures var tlsChanged := settings.ignoreTlsErrors != old(state.ignoreTlsErrors);
              forall id <- desired ::
                && ViewOf(state, id).Realizes(desired[id])
                && Retained(old(ViewOf(state, id)), ViewOf(state, id), desired[id], tlsChanged)
      ensures fresh(newSources) && forall r <- newSources :: r.capacity == state.channelCapacity
      ensures SameOrNew(old(state.sources), state.sources, newSources)
      ensures forall r <- state.Runtimes() :: r in old(state.Runtimes()) || fresh(r)
      ensures old(spawned) <= spawned && fresh(spawned - old(spawned))
      ensures SameOrNew(old(tasks), tasks, spawned - old(spawned))
      ensures state.reconnect == settings.reconnect && state.userAgent == settings.userAgent
      ensures state.ignoreTlsErrors == settings.ignoreTlsErrors && state.channelCapacity == settings.channelCapacity
    {
      hide Tasks, AppState.Runtimes, Utf8.Valid, NeedsReconnect, ViewOf, Matched, Accounted, View.Ready, View.Realizes,
        Retained, Progress, Desired, SameOrNew;
      state.RuntimesAreValues();
      var tlsChanged := StoreSettings(state, settings);
      label stored:
      newSources := ApplySources(state, Desired(settings.sources), tlsChanged);
      state.RuntimesAreValues();
      SameOrNewWithin(old(state.sources), state.sources, newSources);
      forall id | id in desired
        ensures ViewOf(state, id).Realizes(desired[id])
        ensures Retained(old(ViewOf(state, id)), ViewOf(state, id), desired[id], tlsChanged)
      {
        var was, mid, now := old(ViewOf(state, id)), old@stored(ViewOf(state, id)), ViewOf(state, id);
        RetainedSince(was, mid, now, desired[id], tlsChanged);
      }
    }

    lemma RealizedIsInForce(state: AppState, settings: Settings)
      requires Matched(state) && Accounted() && DistinctIds(settings.sources)
      requires state.sources.Keys <= Ids(settings.sources)
      requires forall id <- Desired(settings.sources) :: ViewOf(state, id).Realizes(Desired(settings.sources)[id])
      requires state.reconnect == settings.reconnect && state.userAgent == settings.userAgent
      requires state.ignoreTlsErrors == settings.ignoreTlsErrors && state.channelCapacity == settings.channelCapacity
      ensures state.InForce(settings) && Valid(state)
    {
      hide Utf8.Valid, ViewFrom, Matched, Accounted, Desired;
      var desired := Desired(settings.sources);
      forall id | id in desired
        ensures id in state.sources && state.sources[id].config == desired[id]
      {
        assert ViewOf(state, id).Realizes(desired[id]);
      }
      forall i | 0 <= i < |settings.sources| {
        DesiredHasEach(settings.sources, i);
      }
    }

    ghost function StandingOf(state: AppState): (s: Standing)
      reads this, state`sources, state.Runtimes()`config
      ensures s.sources == state.sources && s.configs.Keys == state.sources.Keys
      ensures forall id <- state.sources :: s.configs[id] == state.sources[id].config
      ensures s.tasks == tasks && s.spawned == spawned
    {
      Standing(state.sources, map id <- state.sources :: state.sources[id].config, tasks, spawned)
    }

    /** How the sources and tasks after a successful reload relate to those before: old ids keep
        their runtime, tasks are kept exactly if they survive, and whatever is not kept is new. */
    ghost predicate ObjectsKept(state: AppState, was: Standing, tlsChanged: bool)
      requires was.configs.Keys == was.sources.Keys
      reads this, state, state.Runtimes(), Tasks()
    {
      && (forall id <- state.sources ::
            if id in was.sources then state.sources[id] == was.sources[id]
            else state.sources[id].capacity == state.channelCapacity)
      && (forall id <- tasks :: id in state.sources)
      && (forall id <- tasks ::
            if id in was.sources && Survives(id in was.tasks, was.configs[id], state.sources[id].config, tlsChanged)
            then id in was.tasks && tasks[id] == was.tasks[id]
            else tasks[id] in spawned - was.spawned)
    }

    /** Runtimes and tasks that were not there before have just been created. */
    twostate predicate NewIsFresh(state: AppState)
      reads this, state
    {
      && (forall id <- state.sources :: id !in old(state.sources) ==> fresh(state.sources[id]))
      && (forall r <- state.Runtimes() :: r in old(state.Runtimes()) || fresh(r))
      && old(spawned) <= spawned && fresh(spawned - old(spawned))
    }

    /** The tasks of `before` are still in their places or dismissed. */
    lemma OldTasksAreAccounted(before: map<Str, ManagedTask>, added: set<ManagedTask>)
      requires Accounted() && SameOrNew(before, tasks, added)
      requires forall a, b :: a in before && b in before && before[a] == before[b] ==> a == b
      requires forall id <- before :: before[id] in spawned && before[id] !in added
      ensures forall id <- before :: (id in tasks && tasks[id] == before[id]) || before[id].Dismissed()
    {
      forall id | id in before && !before[id].Dismissed()
        ensures id in tasks && tasks[id] == before[id]
      {
        var other :| other in tasks && tasks[other] == before[id];
        assert other in before && before[other] == before[id];
      }
    }

    lemma TasksAreSpawned()
      requires Accounted()
      ensures Tasks() <= spawned && forall id <- tasks :: tasks[id] in spawned
    {
    }

    lemma SurvivorsHadTasks(hadTask: bool, next: SourceConfig, tlsChanged: bool)
      ensures forall previous :: Survives(hadTask, previous, next, tlsChanged) ==> hadTask
    {
    }

    lemma ObjectsAreKept(state: AppState, was: Standing, views: map<Str, View>, desired: map<Str, SourceConfig>,
                         newSources: set<SourceRuntime>, tlsChanged: bool)
      requires was.configs.Keys == was.sources.Keys && state.sources.Keys <= desired.Keys && tasks.Keys <= desired.Keys
      requires was.tasks.Keys <= was.sources.Keys && views.Keys == desired.Keys
      requires forall id <- views ::
                 && views[id].runtime == (if id in was.sources then Some(was.sources[id]) else None)
                 && views[id].config == (if id in was.configs then Some(was.configs[id]) else None)
                 && views[id].task == (if id in was.tasks then Some(was.tasks[id]) else None)
      requires forall id <- desired ::
                 && ViewOf(state, id).Realizes(desired[id])
                 && Retained(views[id], ViewOf(state, id), desired[id], tlsChanged)
      requires SameOrNew(was.sources, state.sources, newSources) && SameOrNew(was.tasks, tasks, spawned - was.spawned)
      requires forall r <- newSources :: r.capacity == state.channelCapacity
      requires forall id <- was.tasks :: was.tasks[id] in was.spawned
      ensures ObjectsKept(state, was, tlsChanged)
      ensures forall id <- state.sources :: id !in was.sources ==> state.sources[id] in newSources
    {
      hide Utf8.Valid, ViewFrom, Survives;
      forall id | id in state.sources
        ensures if id in was.sources then state.sources[id] == was.sources[id] else state.sources[id] in newSources
      {
        assert Retained(views[id], ViewOf(state, id), desired[id], tlsChanged);
      }
      forall id | id in tasks
        ensures id in state.sources && state.sources[id].config == desired[id]
        ensures if id in was.sources && Survives(id in was.tasks, was.configs[id], desired[id], tlsChanged)
                then id in was.tasks && tasks[id] == was.tasks[id]
                else tasks[id] in spawned - was.spawned
      {
        assert ViewOf(state, id).Realizes(desired[id]);
        assert Retained(views[id], ViewOf(state, id), desired[id], tlsChanged);
        SurvivorsHadTasks(id in was.tasks, desired[id], tlsChanged);
      }
    }

    /** Which of the tasks that stay enabled are kept: exactly those of sources with the same url, headers
        and proxy, and only if the TLS setting is the same. */
    ghost predicate KeptIfSameLink(state: AppState, was: Standing, tlsWas: bool)
      requires was.tasks.Keys <= was.configs.Keys
      reads this, state, state.Runtimes()
    {
      forall id <- was.tasks :: id in tasks && id in state.sources ==>
        var previous, next := was.configs[id], state.sources[id].config;
        (tasks[id] == was.tasks[id] <==>
           && previous.url == next.url && previous.headers == next.headers && previous.proxy == next.proxy
           && tlsWas == state.ignoreTlsErrors)
    }

    lemma TasksAreKeptIf(state: AppState, was: Standing, tlsWas: bool)
      requires was.configs.Keys == was.sources.Keys && ObjectsKept(state, was, tlsWas != state.ignoreTlsErrors)
      requires was.tasks.Keys <= was.configs.Keys
      requires forall id <- was.tasks :: !was.configs[id].disabled && was.tasks[id] in was.spawned
      ensures KeptIfSameLink(state, was, tlsWas)
    {
      hide Utf8.Valid, Survives;
      forall id | id in was.tasks && id in tasks && id in state.sources
        ensures var previous, next := was.configs[id], state.sources[id].config;
                tasks[id] == was.tasks[id] <==>
                  && previous.url == next.url && previous.headers == next.headers && previous.proxy == next.proxy
                  && tlsWas == state.ignoreTlsErrors
      {
        SurvivesIf(true, was.configs[id], state.sources[id].config, tlsWas != state.ignoreTlsErrors);
      }
    }

    /** Exactly the enabled sources have a task, which runs for their runtime and under the url,
        headers, proxy and TLS setting that are configured. Disabled sources are marked so, and
        any other task there ever was is cancelled and aborted. */
    lemma EnabledHaveTasks(state: AppState)
      requires Valid(state)
      ensures forall id <- state.sources :: state.sources[id].config.id == id
      ensures forall id <- state.sources :: id in tasks <==> !state.sources[id].config.disabled
      ensures forall id <- state.sources :: state.sources[id].config.disabled ==> state.sources[id].Stopped()
      ensures forall id <- tasks ::
                && id in state.sources && tasks[id].runtime == state.sources[id]
                && !tasks[id].cancelled && !tasks[id].aborted && !tasks[id].returned
                && (tasks[id].link.Some? ==>
                      var c := state.sources[id].config;
                      tasks[id].link.value == Link(c.url, c.headers, c.proxy, state.ignoreTlsErrors))
      ensures forall t <- spawned :: (exists id :: id in tasks && tasks[id] == t) || (t.cancelled && t.aborted)
    {
      hide Utf8.Valid;
      forall id | id in state.sources
        ensures id in tasks <==> !state.sources[id].config.disabled
        ensures state.sources[id].config.disabled ==> state.sources[id].Stopped()
        ensures id in tasks ==>
                  && tasks[id].Running()
                  && (tasks[id].link.Some? ==>
                        tasks[id].link.value == LinkOf(state.sources[id].config, state.ignoreTlsErrors))
      {
        assert ViewOf(state, id).Realizes(state.sources[id].config);
      }
    }

    lemma TasksOfStanding(state: AppState)
      requires Valid(state)
      ensures var s := StandingOf(state);
              && s.tasks.Keys <= s.configs.Keys
              && forall id <- s.tasks :: !s.configs[id].disabled && s.tasks[id] in s.spawned
    {
      hide Utf8.Valid;
      EnabledHaveTasks(state);
    }

    method ApplyKept(state: AppState, settings: Settings)
      requires Valid(state) && DistinctIds(settings.sources)
      modifies this`tasks, this`spawned
      modifies state`reconnect, state`userAgent, state`ignoreTlsErrors, state`channelCapacity, state`sources
      modifies state.Runtimes()`config, state.Runtimes()`state, state.Runtimes()`connectedSinceMs
      modifies Tasks()`cancelled, Tasks()`aborted
      modifies spawned`snapshot, spawned`link, spawned`returned
      ensures Valid(state) && state.InForce(settings)
      ensures ObjectsKept(state, old(StandingOf(state)), settings.ignoreTlsErrors != old(state.ignoreTlsErrors))
      ensures old(StandingOf(state)).tasks.Keys <= old(StandingOf(state)).configs.Keys
      ensures KeptIfSameLink(state, old(StandingOf(state)), old(state.ignoreTlsErrors))
      ensures NewIsFresh(state)
      ensures forall id <- old(tasks) ::
                (id in tasks && tasks[id] == old(tasks)[id]) || old(tasks)[id].Dismissed()
    {
      hide Tasks, AppState.Runtimes, AppState.InForce, Utf8.Valid, NeedsReconnect, Survives, ViewFrom, Desired,
        Accounted, ObjectsKept, KeptIfSameLink, SameOrNew, View.Realizes, Retained, Matched;
      ghost var desired := Desired(settings.sources);
      ghost var tlsChanged := settings.ignoreTlsErrors != state.ignoreTlsErrors;
      ghost var was, views := StandingOf(state), map id <- desired :: ViewOf(state, id);
      ghost var tlsWas := state.ignoreTlsErrors;
      TasksOfStanding(state);
      TasksAreDistinct(state);
      TasksAreSpawned();
      ghost var newSources := ApplyValid(state, settings, desired);
      RealizedIsInForce(state, settings);
      OldTasksAreAccounted(was.tasks, spawned - was.spawned);
      ObjectsAreKept(state, was, views, desired, newSources, tlsChanged);
      TasksAreKeptIf(state, was, tlsWas);
    }

    lemma StillPublishable(state: AppState, was: Standing, proxyOk: Str -> bool, settings: Settings)
      requires ValidSettings(proxyOk, settings) && state.InForce(settings) && Valid(state)
      requires was.configs.Keys == was.sources.Keys && exists tlsChanged :: ObjectsKept(state, was, tlsChanged)
      ensures (forall id <- was.sources :: was.sources[id].capacity > 0) ==> state.Publishable()
    {
      forall id | id in state.sources
        ensures ValidId(state.sources[id].config.id)
      {
        var i :| 0 <= i < |settings.sources| && settings.sources[i].id == id;
      }
    }

    lemma DisabledAreStopped(state: AppState)
      requires Valid(state)
      ensures forall id <- state.sources :: state.sources[id].config.disabled ==>
                state.sources[id].state == Disabled && state.sources[id].connectedSinceMs == 0
    {
      hide Utf8.Valid;
      EnabledHaveTasks(state);
    }

    method Apply(state: AppState, proxyOk: Str -> bool, settings: Settings) returns (r: Option<ConfigError>)
      requires Valid(state)
      modifies this`tasks, this`spawned
      modifies state`reconnect, state`userAgent, state`ignoreTlsErrors, state`channelCapacity, state`sources
      modifies state.Runtimes()`config, state.Runtimes()`state, state.Runtimes()`connectedSinceMs
      modifies Tasks()`cancelled, Tasks()`aborted
      modifies spawned`snapshot, spawned`link, spawned`returned
      ensures Valid(state)
      ensures r.None? <==> ValidSettings(proxyOk, settings)
      ensures r.Some? ==> Explains(proxyOk, r.value, settings)
      ensures r.Some? ==> unchanged(this) && unchanged(state) && unchanged(state.Runtimes()) && unchanged(spawned)
      ensures r.None? ==> state.InForce(settings)
      ensures forall id <- state.sources :: state.sources[id].config.disabled ==>
                state.sources[id].state == Disabled && state.sources[id].connectedSinceMs == 0
      ensures r.None? ==>
                ObjectsKept(state, old(StandingOf(state)), settings.ignoreTlsErrors != old(state.ignoreTlsErrors))
      ensures r.None? ==> old(StandingOf(state)).tasks.Keys <= old(StandingOf(state)).configs.Keys
      ensures r.None? ==> KeptIfSameLink(state, old(StandingOf(state)), old(state.ignoreTlsErrors))
      ensures r.None? ==> forall id <- old(tasks) ::
                (id in tasks && tasks[id] == old(tasks)[id]) || old(tasks)[id].Dismissed()
      ensures NewIsFresh(state)
      ensures old(state.Publishable()) ==> state.Publishable()
    {
      hide NeedsReconnect, Survives, Utf8.Valid, ViewOf, AppState.InForce, ValidSettings, Explains, DistinctIds,
        ObjectsKept, KeptIfSameLink, Accounted, Matched, Valid, StandingOf, AppState.Publishable;
      state.PublishableHasRoom();
      DisabledAreStopped(state);
      TasksOfStanding(state);
      ghost var was := StandingOf(state);
      r := ValidateSettings(proxyOk, settings);
      if r.None? {
        AllDistinct(proxyOk, settings);
        ApplyKept(state, settings);
        DisabledAreStopped(state);
        StillPublishable(state, was, proxyOk, settings);
      }
    }

    lemma ConfigsAreDesired(state: AppState, settings: Settings)
      requires state.InForce(settings) && DistinctIds(settings.sources)
      ensures StandingOf(state).configs == Desired(settings.sources)
    {
      hide Desired, Utf8.Valid;
      forall id | id in state.sources
        ensures state.sources[id].config == Desired(settings.sources)[id]
      {
        var i :| 0 <= i < |settings.sources| && settings.sources[i].id == id;
        DesiredHasEach(settings.sources, i);
      }
    }

    lemma TasksAreEnabled(state: AppState)
      requires Valid(state)
      ensures tasks.Keys == EnabledIn(StandingOf(state).configs)
    {
      hide Utf8.Valid;
      EnabledHaveTasks(state);
    }

    lemma NothingReplaced(state: AppState, was: Standing)
      requires was.configs.Keys == was.sources.Keys && ObjectsKept(state, was, false)
      requires was.configs == StandingOf(state).configs
      requires was.tasks.Keys == tasks.Keys == EnabledIn(was.configs)
      ensures state.sources == was.sources && tasks == was.tasks
    {
      hide Utf8.Valid;
      assert state.sources.Keys == StandingOf(state).configs.Keys;
    }

    /** Applying settings that are already in force replaces nothing. */
    method ApplyAgain(state: AppState, proxyOk: Str -> bool, settings: Settings)
      requires Valid(state) && state.InForce(settings) && ValidSettings(proxyOk, settings)
      modifies this`tasks, this`spawned
      modifies state`reconnect, state`userAgent, state`ignoreTlsErrors, state`channelCapacity, state`sources
      modifies state.Runtimes()`config, state.Runtimes()`state, state.Runtimes()`connectedSinceMs
      modifies Tasks()`cancelled, Tasks()`aborted
      modifies spawned`snapshot, spawned`link, spawned`returned
      ensures Valid(state) && state.InForce(settings)
      ensures state.sources == old(state.sources) && tasks == old(tasks)
    {
      hide Utf8.Valid, ValidSettings, Tasks, AppState.Runtimes, AppState.InForce, ViewOf, Valid, Accounted, StandingOf,
        ObjectsKept, DistinctIds, Desired, EnabledIn;
      AllDistinct(proxyOk, settings);
      TasksAreEnabled(state);
      ConfigsAreDesired(state, settings);
      state.InForceTls(settings);
      ghost var was := StandingOf(state);
      var r := Apply(state, proxyOk, settings);
      TasksAreEnabled(state);
      ConfigsAreDesired(state, settings);
      NothingReplaced(state, was);
    }

    lemma ValidTasksAreSpawned(state: AppState)
      requires Valid(state)
      ensures Tasks() <= spawned
    {
    }

    /** A reload. The admin token and the dedup policy are taken over even when the rest of the
        configuration is then refused; `loaded` is absent when the files could not be read. */
    method ReloadFromDisk(state: AppState, proxyOk: Str -> bool, loaded: Option<Settings>)
      returns (r: Option<ReloadError>)
      requires Valid(state)
      modifies this`tasks, this`spawned, state
      modifies state.Runtimes()`config, state.Runtimes()`state, state.Runtimes()`connectedSinceMs
      modifies spawned`cancelled, spawned`aborted, spawned`snapshot, spawned`link, spawned`returned
      ensures Valid(state)
      ensures r.None? <==> loaded.Some? && ValidSettings(proxyOk, loaded.value)
      ensures r == Some(LoadFailed) <==> loaded.None?
      ensures r.Some? && r.value.Rejected? ==> Explains(proxyOk, r.value.error, loaded.value)
      ensures loaded.Some? ==> state.adminToken == loaded.value.adminToken && state.dedup == loaded.value.dedup
      ensures loaded.None? ==> state.adminToken == old(state.adminToken) && state.dedup == old(state.dedup)
      ensures r.Some? ==>
                && unchanged(this) && state.sources == old(state.sources)
                && unchanged(state.Runtimes()) && unchanged(spawned)
                && state.reconnect == old(state.reconnect)
                && state.channelCapacity == old(state.channelCapacity) && state.userAgent == old(state.userAgent)
                && state.ignoreTlsErrors == old(state.ignoreTlsErrors)
      ensures r.None? ==> state.InForce(loaded.value)
      ensures r.None? ==>
                ObjectsKept(state, old(StandingOf(state)), loaded.value.ignoreTlsErrors != old(state.ignoreTlsErrors))
      ensures NewIsFresh(state)
      ensures old(state.Publishable()) ==> state.Publishable()
    {
      hide NeedsReconnect, Survives, Utf8.Valid, AppState.InForce, ValidSettings, Explains, Valid, Matched, ObjectsKept,
        StandingOf, AppState.Publishable;
      if loaded.None? {
        return Some(LoadFailed);
      }
      ValidTasksAreSpawned(state);
      state.adminToken := loaded.value.adminToken;
      state.dedup := loaded.value.dedup;
      var e := Apply(state, proxyOk, loaded.value);
      return if e.Some? then Some(Rejected(e.value)) else None;
    }

    static method Start(state: AppState, proxyOk: Str -> bool, settings: Settings)
      returns (supervisor: SourceSupervisor, r: Option<ConfigError>)
      requires state.sources == map[]
      modifies state
      ensures fresh(supervisor) && supervisor.Valid(state)
      ensures r.None? <==> ValidSettings(proxyOk, settings)
      ensures r.None? ==> state.InForce(settings)
      ensures state.Publishable()
    {
      hide Utf8.Valid, ValidSettings, Explains, ViewFrom, AppState.InForce;
      supervisor := new SourceSupervisor();
      r := supervisor.Apply(state, proxyOk, settings);
    }

    /** Steps of the tasks between two reloads. */
    ghost method RunTasks(state: AppState)
      requires Valid(state)
      modifies spawned`snapshot, spawned`link, spawned`returned
      ensures Valid(state)
    {
      hide Tasks, AppState.Runtimes, Utf8.Valid, ViewFrom, Accounted;
      LetTasksRun(state);
      forall id | id in state.sources
        ensures ViewOf(state, id).Realizes(state.sources[id].config)
      {
        assert Later(old(ViewOf(state, id)), ViewOf(state, id));
      }
    }

    lemma KeptRuntimes(state: AppState, was: Standing, tlsChanged: bool, settings: Settings)
      requires was.configs.Keys == was.sources.Keys && ObjectsKept(state, was, tlsChanged) && state.InForce(settings)
      ensures forall id <- was.sources :: id in Ids(settings.sources) ==>
                id in state.sources && state.sources[id] == was.sources[id]
    {
    }

    /** Task steps, and then a reload, starting with `current` in force. */
    method ServeReload(state: AppState, proxyOk: Str -> bool, loaded: Option<Settings>, ghost current: Settings)
      requires Valid(state) && state.InForce(current)
      modifies this`tasks, this`spawned, state
      modifies state.Runtimes()`config, state.Runtimes()`state, state.Runtimes()`connectedSinceMs
      modifies spawned`cancelled, spawned`aborted, spawned`snapshot, spawned`link, spawned`returned
      ensures Valid(state)
      ensures state.InForce(if Accepted(proxyOk, loaded) then loaded.value else current)
      ensures forall id <- old(state.sources) :: (Accepted(proxyOk, loaded) ==> id in Ids(loaded.value.sources)) ==>
                id in state.sources && state.sources[id] == old(state.sources)[id]
      ensures NewIsFresh(state)
      ensures old(state.Publishable()) ==> state.Publishable()
    {
      hide Utf8.Valid, ViewOf, Valid, AppState.InForce, AppState.Publishable, AppState.Runtimes, Survives,
        ValidSettings, Explains, ObjectsKept, StandingOf;
      RunTasks(state);
      ghost var was, tlsWas := StandingOf(state), state.ignoreTlsErrors;
      var r := ReloadFromDisk(state, proxyOk, loaded);
      if r.None? {
        KeptRuntimes(state, was, loaded.value.ignoreTlsErrors != tlsWas, loaded.value);
      }
    }

    /** Any run of reloads, good or bad, with task steps between them. */
    method ServeReloads(state: AppState, proxyOk: Str -> bool, script: seq<Option<Settings>>, ghost initial: Settings)
      requires Valid(state) && state.InForce(initial)
      modifies this`tasks, this`spawned, state
      modifies state.Runtimes()`config, state.Runtimes()`state, state.Runtimes()`connectedSinceMs
      modifies spawned`cancelled, spawned`aborted, spawned`snapshot, spawned`link, spawned`returned
      ensures Valid(state) && state.InForce(InEffect(proxyOk, initial, script))
      ensures forall id <- old(state.sources) :: Stays(proxyOk, script, id) ==>
                id in state.sources && state.sources[id] == old(state.sources)[id]
      ensures old(spawned) <= spawned
      ensures old(state.Publishable()) ==> state.Publishable()
    {
      hide Utf8.Valid, ViewOf, Valid, AppState.InForce, AppState.Publishable, AppState.Runtimes, Stays, Survives,
        ValidSettings, Explains;
      assert script[..0] == [];
      for k := 0 to |script|
        invariant Valid(state) && state.InForce(InEffect(proxyOk, initial, script[..k]))
        invariant forall r <- state.Runtimes() :: r in old(state.Runtimes()) || fresh(r)
        invariant old(spawned) <= spawned && fresh(spawned - old(spawned))
        invariant old(state.Publishable()) ==> state.Publishable()
        invariant forall id <- old(state.sources) :: Stays(proxyOk, script[..k], id) ==>
                    id in state.sources && state.sources[id] == old(state.sources)[id]
      {
        assert script[..k + 1][..k] == script[..k] && script[..k + 1][k] == script[k];
        ServeReload(state, proxyOk, script[k], InEffect(proxyOk, initial, script[..k]));
        forall id | id in old(state.sources) && Stays(proxyOk, script[..k + 1], id)
          ensures Stays(proxyOk, script[..k], id)
          ensures Accepted(proxyOk, script[k]) ==> id in Ids(script[k].value.sources)
        {
          StaysSoFar(proxyOk, script[..k + 1], id);
        }
      }
      assert script[..|script|] == script;
    }
  }
}
