/**
 * The refresh-state manager of the background script, as pure transitions.
 *
 * A `World` is the module-level `refreshState` record together with the
 * browser collaborators the handlers touch: the open tabs, the named alarms
 * (period in whole seconds), the one stored record, the reloads issued and the
 * messages sent to the popup. Every listener runs as one atomic step, and every
 * call into the browser that can reject is controlled by a flag of `Faults`.
 * An `Outcome` whose `ok` is false is a handler that threw (rejected).
 */
module Refresh {
  import opened Wrappers

  type TabId = int

  /** The alarm name fixed in the initial record. */
  const AlarmName: string := "tabAutoRefresh"
  /** The interval, in seconds, of the initial record. */
  const DefaultInterval: int := 30

  datatype RefreshState = RefreshState(isActive: bool, interval: int, tabId: Option<TabId>, alarmName: string)

  /** The record as the script is loaded: inactive, 30 seconds, no tab. */
  const Initial: RefreshState := RefreshState(false, DefaultInterval, None, AlarmName)

  /** One-way notifications sent to the popup. */
  datatype Notice = RefreshStopped

  datatype Env = Env(
    openTabs: set<TabId>,          // tabs.get succeeds exactly for these
    alarms: map<string, int>,      // alarm name -> delay and period, in seconds
    stored: Option<RefreshState>,  // the `refreshState` key of local storage
    reloads: seq<TabId>,           // reloads issued, oldest first
    outbox: seq<Notice>)           // messages sent through runtime.sendMessage

  datatype World = World(state: RefreshState, env: Env)

  /** Which browser calls reject during one handler (each is called at most once per handler). */
  datatype Faults = Faults(
    getFails: bool,      // storage.local.get
    clearFails: bool,    // alarms.clear
    createFails: bool,   // alarms.create
    setFails: bool,      // storage.local.set
    removeFails: bool,   // storage.local.remove
    reloadFails: bool)   // tabs.reload

  const NoFaults: Faults := Faults(false, false, false, false, false, false)

  /** The new world, and whether the handler completed without throwing. */
  datatype Outcome = Outcome(world: World, ok: bool)

  /** The actions the message listener understands; anything else is `OtherAction`. */
  datatype Request = StartRefresh(interval: int, tabId: TabId) | StopRefresh | GetStatus | OtherAction

  datatype Reply = Done(success: bool) | Status(isActive: bool, interval: int, tabId: Option<TabId>)

  /** What the message listener leaves behind: the new world and the reply, if any is sent. */
  datatype Handled = Handled(world: World, reply: Option<Reply>)

  /** `chrome.tabs.get(id)` resolves: the id is not null and names an open tab. */
  predicate TabOpen(tabs: set<TabId>, id: Option<TabId>) {
    id.Some? && id.value in tabs
  }

  /** JavaScript truthiness of a tab id: both `null` and `0` are falsy. */
  predicate Truthy(id: Option<TabId>) {
    id.Some? && id.value != 0
  }

  /** Active exactly when a tab is targeted, and exactly when the alarm exists. */
  ghost predicate Coherent(w: World) {
    && (w.state.isActive <==> w.state.tabId.Some?)
    && (w.state.isActive <==> w.state.alarmName in w.env.alarms)
  }

  /** The stored record mirrors the in-memory one while active and is absent otherwise. */
  ghost predicate Mirrored(w: World) {
    w.env.stored == if w.state.isActive then Some(w.state) else None
  }

  /** Only the record's fields and the two collaborators a handler may touch differ. */
  ghost predicate SameTabsAndLogs(a: Env, b: Env) {
    a.openTabs == b.openTabs && a.reloads == b.reloads && a.outbox == b.outbox
  }

  /** `stopAutoRefresh`: clear the alarm, mark inactive, forget the tab, remove the stored record. */
  function Stop(w: World, f: Faults): (r: Outcome)
    ensures r.ok <==> !f.clearFails && !f.removeFails
    ensures f.clearFails ==> r.world == w
    ensures !f.clearFails ==>
      && !r.world.state.isActive && r.world.state.tabId == None
      && r.world.state.interval == w.state.interval
      && r.world.state.alarmName == w.state.alarmName
      && r.world.env.alarms == w.env.alarms - {w.state.alarmName}
      && r.world.env.stored == (if f.removeFails then w.env.stored else None)
      && SameTabsAndLogs(r.world.env, w.env)
      && Coherent(r.world)
    ensures r.ok ==> Mirrored(r.world)
  {
    if f.clearFails then Outcome(w, false)
    else
      var cleared := World(w.state.(isActive := false, tabId := None),
                           w.env.(alarms := w.env.alarms - {w.state.alarmName}));
      if f.removeFails then Outcome(cleared, false)
      else Outcome(cleared.(env := cleared.env.(stored := None)), true)
  }

  /**
   * `startAutoRefresh`: clear the old alarm, look the tab up, assign the three
   * fields, create the alarm, store the record. Nothing is rolled back when a
   * later step throws.
   */
  function Start(w: World, interval: int, tabId: TabId, f: Faults): (r: Outcome)
    ensures r.ok <==> !f.clearFails && tabId in w.env.openTabs && !f.createFails && !f.setFails
    ensures SameTabsAndLogs(r.world.env, w.env)
    ensures r.world.state.alarmName == w.state.alarmName
    // alarms.clear rejected: nothing happened
    ensures f.clearFails ==> r.world == w
    // the tab lookup rejected: the record is untouched, but the alarm is already gone
    ensures !f.clearFails && tabId !in w.env.openTabs ==>
      && r.world.state == w.state
      && r.world.env.alarms == w.env.alarms - {w.state.alarmName}
      && r.world.env.stored == w.env.stored
    // the lookup succeeded: the record now targets the new tab, whatever follows
    ensures !f.clearFails && tabId in w.env.openTabs ==>
      && r.world.state.isActive
      && r.world.state.interval == interval
      && r.world.state.tabId == Some(tabId)
      && (w.state.alarmName in r.world.env.alarms <==> !f.createFails)
      && (!f.createFails ==> r.world.env.alarms == w.env.alarms[w.state.alarmName := interval])
      && (f.createFails ==> r.world.env.alarms == w.env.alarms - {w.state.alarmName})
      && r.world.env.stored == (if r.ok then Some(r.world.state) else w.env.stored)
    ensures r.ok ==> Coherent(r.world) && Mirrored(r.world)
  {
    if f.clearFails then Outcome(w, false)
    else
      var name := w.state.alarmName;
      var env := w.env.(alarms := w.env.alarms - {name});
      if tabId !in env.openTabs then Outcome(World(w.state, env), false)
      else
        var st := w.state.(isActive := true, interval := interval, tabId := Some(tabId));
        if f.createFails then Outcome(World(st, env), false)
        else
          var env' := env.(alarms := env.alarms[name := interval]);
          if f.setFails then Outcome(World(st, env'), false)
          else Outcome(World(st, env'.(stored := Some(st))), true)
  }

  /**
   * `refreshTab`: nothing unless active with a truthy tab id; then reload the
   * tab, and stop when the lookup or the reload throws.
   */
  function RefreshTab(w: World, f: Faults): (r: World)
    ensures !w.state.isActive || !Truthy(w.state.tabId) ==> r == w
    ensures w.state.isActive && Truthy(w.state.tabId) ==>
      var t := w.state.tabId.value;
      if t in w.env.openTabs && !f.reloadFails
      then r.state == w.state && r.env == w.env.(reloads := w.env.reloads + [t])
      else r == Stop(w, f).world
    ensures |r.env.reloads| <= |w.env.reloads| + 1
    ensures Coherent(w) ==> Coherent(r)
  {
    if !w.state.isActive || !Truthy(w.state.tabId) then w
    else
      var t := w.state.tabId.value;
      if t !in w.env.openTabs || f.reloadFails then Stop(w, f).world
      else w.(env := w.env.(reloads := w.env.reloads + [t]))
  }

  /** The alarm listener: only our alarm, and only while active, triggers a refresh. */
  function OnAlarm(w: World, name: string, f: Faults): (r: World)
    ensures name != w.state.alarmName || !w.state.isActive ==> r == w
    ensures name == w.state.alarmName && w.state.isActive ==> r == RefreshTab(w, f)
    ensures r.env.reloads != w.env.reloads ==>
      name == w.state.alarmName && r.env.reloads == w.env.reloads + [w.state.tabId.value]
  {
    if name == w.state.alarmName && w.state.isActive then RefreshTab(w, f) else w
  }

  /**
   * The tab-removed listener: removing the targeted tab while active stops and
   * sends `refreshStopped` (whether or not the stop itself rejects).
   */
  function OnRemoved(w: World, id: TabId, f: Faults): (r: World)
    ensures !(w.state.isActive && w.state.tabId == Some(id)) ==> r == w
    ensures w.state.isActive && w.state.tabId == Some(id) ==>
      var s := Stop(w, f).world;
      r.state == s.state && r.env == s.env.(outbox := w.env.outbox + [RefreshStopped])
  {
    if w.state.tabId == Some(id) && w.state.isActive then
      var s := Stop(w, f).world;
      s.(env := s.env.(outbox := s.env.outbox + [RefreshStopped]))
    else w
  }

  /**
   * The startup listener: adopt an active stored record wholesale, then recreate
   * its alarm, or stop when its tab is gone or the alarm cannot be created.
   * A failed storage read, or a rejected stop, is only logged.
   */
  function OnStartup(w: World, f: Faults): (r: World)
    ensures f.getFails || w.env.stored.None? || !w.env.stored.value.isActive ==> r == w
    ensures !f.getFails && w.env.stored.Some? && w.env.stored.value.isActive ==>
      var rec := w.env.stored.value;
      if TabOpen(w.env.openTabs, rec.tabId) && !f.createFails
      then r.state == rec && r.env == w.env.(alarms := w.env.alarms[rec.alarmName := rec.interval])
      else r == Stop(World(rec, w.env), f).world
  {
    if f.getFails then w
    else match w.env.stored
      case None => w
      case Some(rec) =>
        if !rec.isActive then w
        else
          var adopted := World(rec, w.env);
          if TabOpen(w.env.openTabs, rec.tabId) && !f.createFails
          then adopted.(env := w.env.(alarms := w.env.alarms[rec.alarmName := rec.interval]))
          else Stop(adopted, f).world
  }

  /**
   * The message listener: start and stop reply whether they completed, status
   * replies the three visible fields, anything else gets no reply.
   */
  function Dispatch(w: World, req: Request, f: Faults): (h: Handled)
    ensures req.StartRefresh? ==>
      var o := Start(w, req.interval, req.tabId, f);
      h.world == o.world && h.reply == Some(Done(o.ok))
    ensures req.StopRefresh? ==>
      var o := Stop(w, f);
      h.world == o.world && h.reply == Some(Done(o.ok))
    ensures req.GetStatus? ==>
      h.world == w && h.reply == Some(Status(w.state.isActive, w.state.interval, w.state.tabId))
    ensures req.OtherAction? ==> h == Handled(w, None)
  {
    match req
    case StartRefresh(interval, tabId) =>
      var o := Start(w, interval, tabId, f);
      Handled(o.world, Some(Done(o.ok)))
    case StopRefresh =>
      var o := Stop(w, f);
      Handled(o.world, Some(Done(o.ok)))
    case GetStatus =>
      Handled(w, Some(Status(w.state.isActive, w.state.interval, w.state.tabId)))
    case OtherAction =>
      Handled(w, None)
  }
}
