/**
 * Sequences of listener invocations, and what holds along them.
 *
 * An `Event` is one thing the browser delivers to the background script; `Step`
 * runs the matching listener to completion and `Run` runs a whole sequence.
 * The properties below relate several calls: idempotence of stop, start
 * replacing its predecessor, the end-to-end scenario of a start followed by the
 * target tab closing, and three invariants kept along every run.
 */
module Lifecycle {
  import opened Wrappers
  import opened Refresh
  import Popup

  datatype Event =
    | Message(req: Request, f: Faults)   // runtime.onMessage
    | AlarmFired(name: string, f: Faults) // alarms.onAlarm
    | TabOpened(id: TabId)                // the browser opens a tab
    | TabClosed(id: TabId, f: Faults)     // the browser closes a tab, then tabs.onRemoved
    | TabUpdated(id: TabId)               // tabs.onUpdated
    | FocusChanged(windowId: int)         // windows.onFocusChanged
    | Restart(f: Faults)                  // the script is loaded afresh, then runtime.onStartup

  function Step(w: World, e: Event): World {
    match e
    case Message(req, f) => Dispatch(w, req, f).world
    case AlarmFired(name, f) => OnAlarm(w, name, f)
    case TabOpened(id) => w.(env := w.env.(openTabs := w.env.openTabs + {id}))
    case TabClosed(id, f) => OnRemoved(w.(env := w.env.(openTabs := w.env.openTabs - {id})), id, f)
    // these two listeners only compare; Background.RefreshManager.OnUpdated and
    // OnFocusChanged have no modifies clause
    case TabUpdated(_) => w
    case FocusChanged(_) => w
    case Restart(f) => OnStartup(World(Initial, w.env), f)
  }

  function Run(w: World, es: seq<Event>): World
    decreases |es|
  {
    if es == [] then w else Run(Step(w, es[0]), es[1..])
  }

  /** The world a browser without stored state sees when the script first loads. */
  function Fresh(tabs: set<TabId>): World {
    World(Initial, Env(tabs, map[], None, [], []))
  }

  // ---------------------------------------------------------------------
  // Properties of single handlers combined

  /** When no browser call rejects, a second stop changes nothing and succeeds. */
  lemma StopIdempotent(w: World)
    ensures var once := Stop(w, NoFaults).world; Stop(once, NoFaults) == Outcome(once, true)
  {
  }

  /** When no browser call rejects, stopping while already stopped (and coherent) leaves the world as it was and succeeds. */
  lemma StopWhenStopped(w: World)
    requires Coherent(w) && Mirrored(w) && !w.state.isActive
    ensures Stop(w, NoFaults) == Outcome(w, true)
  {
  }

  /**
   * When no browser call rejects, starting on tab `a` and then on tab `b` leaves only `b` targeted, with the
   * second interval, and a single alarm entry under the alarm name.
   */
  lemma StartReplacesPrevious(w: World, i1: int, a: TabId, i2: int, b: TabId)
    requires a in w.env.openTabs && b in w.env.openTabs
    ensures var first := Start(w, i1, a, NoFaults).world;
            var second := Start(first, i2, b, NoFaults);
            && second.ok
            && second.world.state == RefreshState(true, i2, Some(b), w.state.alarmName)
            && second.world.env.alarms == w.env.alarms[w.state.alarmName := i2]
            && second.world.env.stored == Some(second.world.state)
  {
  }

  /** A successful start followed by `getStatus` reports the new target and interval. */
  lemma StartThenStatus(w: World, interval: int, t: TabId)
    requires t in w.env.openTabs
    ensures var started := Dispatch(w, StartRefresh(interval, t), NoFaults);
            && started.reply == Some(Done(true))
            && Dispatch(started.world, GetStatus, NoFaults).reply == Some(Status(true, interval, Some(t)))
  {
  }

  /**
   * Starting on a tab that is not open while refresh is active, unless
   * `alarms.clear` itself rejects, leaves the record active but without its
   * alarm: no further refresh will ever fire, although the status still reports
   * active. When `alarms.clear` rejects, nothing changes and all stays coherent.
   */
  lemma StartOnClosedTabLosesAlarm(w: World, interval: int, t: TabId, f: Faults)
    requires Coherent(w) && w.state.isActive && t !in w.env.openTabs
    ensures var o := Start(w, interval, t, f);
            && !o.ok
            && o.world.state == w.state
            && (!f.clearFails ==> !Coherent(o.world) && w.state.alarmName !in o.world.env.alarms)
            && (f.clearFails ==> o.world == w && Coherent(o.world))
  {
  }

  /**
   * When `alarms.create` or `storage.set` rejects, start reports failure but the
   * record keeps the new target and interval (no rollback); only a create
   * failure leaves it without an alarm.
   */
  lemma StartFailureAfterAssignment(w: World, interval: int, t: TabId, f: Faults)
    requires !f.clearFails && t in w.env.openTabs && (f.createFails || f.setFails)
    ensures var h := Dispatch(w, StartRefresh(interval, t), f);
            && h.reply == Some(Done(false))
            && h.world.state == RefreshState(true, interval, Some(t), w.state.alarmName)
            && h.world.env.stored == w.env.stored
            && (Coherent(h.world) <==> !f.createFails)
  {
  }

  /** A reload that rejects on an open tab ends the schedule, exactly as a stop would. */
  lemma ReloadFailureStops(w: World, f: Faults)
    requires w.state.isActive && Truthy(w.state.tabId) && f.reloadFails
    ensures Step(w, AlarmFired(w.state.alarmName, f)) == Stop(w, f).world
  {
  }

  /**
   * Start on tab 1 every 30 seconds, then close tab 1: status goes from active
   * to inactive, keeping the interval, and `refreshStopped` is sent exactly once.
   */
  lemma StartThenCloseScenario(tabs: set<TabId>)
    requires 1 in tabs
    ensures var w1 := Step(Fresh(tabs), Message(StartRefresh(30, 1), NoFaults));
            && Dispatch(w1, GetStatus, NoFaults).reply == Some(Status(true, 30, Some(1)))
            && w1.env.outbox == []
    ensures var w2 := Run(Fresh(tabs), [Message(StartRefresh(30, 1), NoFaults), TabClosed(1, NoFaults)]);
            && Dispatch(w2, GetStatus, NoFaults).reply == Some(Status(false, 30, None))
            && w2.env.outbox == [RefreshStopped]
            && w2.env.stored == None
            && w2.env.alarms == map[]
  {
    var w0 := Fresh(tabs);
    var e0, e1 := Message(StartRefresh(30, 1), NoFaults), TabClosed(1, NoFaults);
    var w1 := Step(w0, e0);
    assert [e0, e1][1..] == [e1];
    assert Run(w0, [e0, e1]) == Run(w1, [e1]) == Step(w1, e1);
  }

  /**
   * Startup recovery with an active stored record, when no browser call rejects: the record is adopted with a
   * live alarm when its tab is open, and otherwise the result is a stop that
   * also clears storage.
   */
  lemma RecoveryOutcomes(env: Env, rec: RefreshState)
    requires env.stored == Some(rec) && rec.isActive
    ensures var r := Step(World(Initial, env), Restart(NoFaults));
            if TabOpen(env.openTabs, rec.tabId)
            then r.state == rec && r.env.alarms[rec.alarmName] == rec.interval && Mirrored(r)
            else !r.state.isActive && r.env.stored == None && rec.alarmName !in r.env.alarms
  {
  }

  // ---------------------------------------------------------------------
  // Invariant 1: at most one timer, always under the fixed name

  /** The only alarm there can be is `tabAutoRefresh`, and every record carries that name. */
  ghost predicate SingleTimer(w: World) {
    && w.state.alarmName == AlarmName
    && w.env.alarms.Keys <= {AlarmName}
    && (w.env.stored.Some? ==> w.env.stored.value.alarmName == AlarmName)
  }

  lemma StepKeepsSingleTimer(w: World, e: Event)
    requires SingleTimer(w)
    ensures SingleTimer(Step(w, e))
  {
    match e
    case Restart(f) =>
      assert SingleTimer(World(Initial, w.env));
    case _ =>
  }

  /** Whatever the browser does and whichever calls reject, there is never more than one alarm. */
  lemma {:induction false} RunKeepsSingleTimer(w: World, es: seq<Event>)
    requires SingleTimer(w)
    ensures SingleTimer(Run(w, es))
    decreases |es|
  {
    if es != [] {
      StepKeepsSingleTimer(w, es[0]);
      RunKeepsSingleTimer(Step(w, es[0]), es[1..]);
    }
  }

  // ---------------------------------------------------------------------
  // Invariant 2: intervals stay in the popup's range

  predicate InRange(n: int) {
    Popup.MinInterval <= n <= Popup.MaxInterval
  }

  /** Every interval in memory, in an alarm or in storage lies in [1, 3600]. */
  ghost predicate IntervalsInRange(w: World) {
    && InRange(w.state.interval)
    && (forall name :: name in w.env.alarms ==> InRange(w.env.alarms[name]))
    && (w.env.stored.Some? ==> InRange(w.env.stored.value.interval))
  }

  /** A start request as the popup sends it: its interval passed `validateInterval`. */
  predicate FromPopup(e: Event) {
    e.Message? && e.req.StartRefresh? ==> Popup.ValidateInterval(Some(e.req.interval))
  }

  lemma StepKeepsIntervalsInRange(w: World, e: Event)
    requires IntervalsInRange(w) && FromPopup(e)
    ensures IntervalsInRange(Step(w, e))
  {
    match e
    case Restart(f) =>
      assert IntervalsInRange(World(Initial, w.env));
    case _ =>
  }

  /**
   * The background script never checks the interval itself, yet as long as every
   * start request comes through the popup's check, no out-of-range interval is
   * ever held, scheduled or stored, whichever calls reject.
   */
  lemma {:induction false} RunKeepsIntervalsInRange(w: World, es: seq<Event>)
    requires IntervalsInRange(w)
    requires forall e :: e in es ==> FromPopup(e)
    ensures IntervalsInRange(Run(w, es))
    decreases |es|
  {
    if es != [] {
      StepKeepsIntervalsInRange(w, es[0]);
      RunKeepsIntervalsInRange(Step(w, es[0]), es[1..]);
    }
  }

  // ---------------------------------------------------------------------
  // Invariant 3: memory, alarm and storage agree, while nothing rejects

  /** Active ⇔ a tab is targeted ⇔ the alarm exists, and storage mirrors memory. */
  ghost predicate Synced(w: World) {
    Coherent(w) && Mirrored(w) && w.state.alarmName == AlarmName
  }

  /**
   * No browser call rejects, and a start made while active names a tab that is
   * open at that moment (a start on a closed tab while inactive is harmless).
   */
  predicate Benign(w: World, e: Event) {
    match e
    case Message(req, f) => f == NoFaults && (req.StartRefresh? && w.state.isActive ==> req.tabId in w.env.openTabs)
    case AlarmFired(_, f) => f == NoFaults
    case TabClosed(_, f) => f == NoFaults
    case Restart(f) => f == NoFaults
    case _ => true
  }

  predicate BenignRun(w: World, es: seq<Event>)
    decreases |es|
  {
    es == [] || (Benign(w, es[0]) && BenignRun(Step(w, es[0]), es[1..]))
  }

  lemma StepKeepsSynced(w: World, e: Event)
    requires Synced(w) && Benign(w, e)
    ensures Synced(Step(w, e))
  {
    match e
    case Restart(f) =>
      var w0 := World(Initial, w.env);
      if w.state.isActive {
        assert w.env.stored == Some(w.state);
      } else {
        assert Synced(w0);
      }
    case TabClosed(id, f) =>
      var w0 := w.(env := w.env.(openTabs := w.env.openTabs - {id}));
      assert Synced(w0);
    case _ =>
  }

  /**
   * While no browser call rejects and every start made while active names an open tab, the
   * record, the alarm and the stored copy agree after every event, across
   * restarts included.
   */
  lemma {:induction false} RunKeepsSynced(w: World, es: seq<Event>)
    requires Synced(w) && BenignRun(w, es)
    ensures Synced(Run(w, es))
    decreases |es|
  {
    if es != [] {
      StepKeepsSynced(w, es[0]);
      RunKeepsSynced(Step(w, es[0]), es[1..]);
    }
  }

  /** The script's first load satisfies all three invariants. */
  lemma FreshSatisfiesInvariants(tabs: set<TabId>)
    ensures SingleTimer(Fresh(tabs)) && IntervalsInRange(Fresh(tabs)) && Synced(Fresh(tabs))
  {
  }
}
