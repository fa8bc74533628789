/**
 * The background script as a mutable object: the fields of the module-level
 * `refreshState` record, beside the browser collaborators the listeners change.
 * Each listener is one method, run to completion; each is proved to do exactly
 * what the matching transition of module `Refresh` prescribes.
 */
module Background {
  import opened Wrappers
  import opened Refresh

  class RefreshManager {
    // the `refreshState` record
    var isActive: bool
    var interval: int
    var tabId: Option<TabId>
    var alarmName: string

    // the browser, as far as the listeners see it
    var openTabs: set<TabId>
    var alarms: map<string, int>
    var stored: Option<RefreshState>
    var reloads: seq<TabId>
    var outbox: seq<Notice>

    /** The record and its environment as one value. */
    function Snapshot(): World
      reads this
    {
      World(RefreshState(isActive, interval, tabId, alarmName),
            Env(openTabs, alarms, stored, reloads, outbox))
    }

    /** Loading the script: the initial record, in a browser that is already running. */
    constructor (env: Env)
      ensures Snapshot() == World(Initial, env)
    {
      isActive, interval, tabId, alarmName := false, DefaultInterval, None, AlarmName;
      openTabs, alarms, stored, reloads, outbox := env.openTabs, env.alarms, env.stored, env.reloads, env.outbox;
    }

    method Stop(f: Faults) returns (ok: bool)
      modifies this
      ensures var o := Refresh.Stop(old(Snapshot()), f); Snapshot() == o.world && ok == o.ok
    {
      if f.clearFails { return false; }
      alarms := alarms - {alarmName};
      isActive := false;
      tabId := None;
      if f.removeFails { return false; }
      stored := None;
      return true;
    }

    method Start(newInterval: int, newTabId: TabId, f: Faults) returns (ok: bool)
      modifies this
      ensures var o := Refresh.Start(old(Snapshot()), newInterval, newTabId, f); Snapshot() == o.world && ok == o.ok
    {
      if f.clearFails { return false; }
      alarms := alarms - {alarmName};
      if newTabId !in openTabs { return false; }
      isActive := true;
      interval := newInterval;
      tabId := Some(newTabId);
      if f.createFails { return false; }
      alarms := alarms[alarmName := interval];
      if f.setFails { return false; }
      stored := Some(RefreshState(isActive, interval, tabId, alarmName));
      return true;
    }

    method RefreshTab(f: Faults)
      modifies this
      ensures Snapshot() == Refresh.RefreshTab(old(Snapshot()), f)
    {
      if !isActive || !Truthy(tabId) { return; }
      var t := tabId.value;
      if t !in openTabs || f.reloadFails {
        var _ := Stop(f);
        return;
      }
      reloads := reloads + [t];
    }

    method OnAlarm(name: string, f: Faults)
      modifies this
      ensures Snapshot() == Refresh.OnAlarm(old(Snapshot()), name, f)
    {
      if name == alarmName && isActive {
        RefreshTab(f);
      }
    }

    method OnRemoved(id: TabId, f: Faults)
      modifies this
      ensures Snapshot() == Refresh.OnRemoved(old(Snapshot()), id, f)
    {
      if tabId == Some(id) && isActive {
        var _ := Stop(f);
        outbox := outbox + [RefreshStopped];
      }
    }

    /**
     * The tab-updated listener compares the updated tab with the target and
     * does nothing either way; it may change nothing (no `modifies`).
     */
    method OnUpdated(id: TabId)
      ensures Snapshot() == old(Snapshot())
    {
      if tabId == Some(id) && isActive {
        // the target was updated: refreshing simply continues
      }
    }

    /**
     * The focus listener: for a real window while active it looks up that
     * window's active tab (`activeTab`) and compares it with the target; it
     * may change nothing either way.
     */
    method OnFocusChanged(windowId: int, activeTab: Option<TabId>)
      ensures Snapshot() == old(Snapshot())
    {
      if windowId == WindowIdNone {
        return;
      }
      if isActive && activeTab.Some? && Some(activeTab.value) != tabId {
        // another tab has focus: the original target keeps being refreshed
      }
    }

    method OnStartup(f: Faults)
      modifies this
      ensures Snapshot() == Refresh.OnStartup(old(Snapshot()), f)
    {
      if f.getFails { return; }
      match stored
      case None =>
      case Some(rec) =>
        if rec.isActive {
          isActive, interval, tabId, alarmName := rec.isActive, rec.interval, rec.tabId, rec.alarmName;
          if TabOpen(openTabs, tabId) && !f.createFails {
            alarms := alarms[alarmName := interval];
          } else {
            var _ := Stop(f);
          }
        }
    }

    method GetStatus() returns (status: Reply)
      ensures status == Status(isActive, interval, tabId)
    {
      status := Status(isActive, interval, tabId);
    }

    method HandleMessage(req: Request, f: Faults) returns (reply: Option<Reply>)
      modifies this
      ensures var h := Refresh.Dispatch(old(Snapshot()), req, f); Snapshot() == h.world && reply == h.reply
    {
      match req
      case StartRefresh(i, t) =>
        var ok := Start(i, t, f);
        reply := Some(Done(ok));
      case StopRefresh =>
        var ok := Stop(f);
        reply := Some(Done(ok));
      case GetStatus =>
        var status := GetStatus();
        reply := Some(status);
      case OtherAction =>
        reply := None;
    }
  }

  /** `chrome.windows.WINDOW_ID_NONE`. */
  const WindowIdNone: int := -1
}
