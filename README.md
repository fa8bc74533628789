# Tab auto-refresh: the refresh-state manager, in Dafny

This project models the background script of a browser extension that reloads
one tab at a fixed interval. It also models the popup's input check, which runs
before a start request is sent. The background script keeps one module-level
record, `refreshState`, with the fields `isActive`, `interval`, `tabId` and
`alarmName`. Its listeners change that record, the browser's alarms and
local storage:

- message requests `startRefresh`, `stopRefresh` and `getStatus`;
- the alarm firing;
- a tab being removed;
- browser startup.

Files:

- `wrappers.dfy`: `Option`. JavaScript `null`, and a `parseInt` result of NaN, are `None`.
- `refresh.dfy`, module `Refresh`: one pure transition per listener over a
  `World`. A `World` is the record plus the browser as the listeners see it:
  - the open tabs;
  - a map from alarm name to period in seconds;
  - the one stored record;
  - the reloads issued;
  - the messages sent to the popup.

  A `Faults` value says which browser calls reject during one listener:
  `storage.get`, `alarms.clear`, `alarms.create`, `storage.set`,
  `storage.remove` and `tabs.reload`. `tabs.get` rejects exactly when the tab
  is not open. Each function's contract states the outcome on every path.
- `background.dfy`, module `Background`: class `RefreshManager` holds the
  record's fields and the browser state as mutable fields. It has one method
  per listener, and each method assigns the fields step by step as the script
  does. Each state-changing method is proved to end in exactly the world the
  matching `Refresh` function gives. `OnUpdated`, `OnFocusChanged` and
  `GetStatus` have no matching function; they have no `modifies` clause and are
  proved to change nothing.
- `popup.dfy`, module `Popup`: `ValidateInterval`, and class `Controls` with the
  `disabled` flags of the start button, the stop button and the input.
- `lifecycle.dfy`, module `Lifecycle`:
  - events, `Step` and `Run` over sequences of events;
  - lemmas that relate several calls;
  - three invariants, each proved by induction over every run:
    - `SingleTimer`: at most one alarm ever exists, under the fixed name. This
      holds whatever rejects.
    - `IntervalsInRange`: every held, scheduled or stored interval lies in
      [1, 3600]. This holds when every start request passed the popup's check.
    - `Synced`: active ⇔ a tab is targeted ⇔ the alarm exists, and storage
      mirrors memory. This holds while nothing rejects and every start made
      while active names an open tab.

The model follows the script as written. Four behaviours of the script are
worth knowing:

- A reload that rejects stops the schedule (`background.js:148-152`), just as
  a tab that is gone does.
- `startAutoRefresh` clears the alarm before it looks up the tab
  (`background.js:81`, `84`). A start on a closed tab while active therefore
  leaves the record active with no alarm, unless `alarms.clear` itself rejects,
  and the status still reports active.
  `Lifecycle.StartOnClosedTabLosesAlarm` proves this.
- Nothing is rolled back when `alarms.create` or `storage.set` rejects after
  the fields were assigned (`background.js:90-108`).
- In startup recovery, a rejected `alarms.create` is caught by the same
  `catch` as a missing tab, so it also ends in a stop (`background.js:164-174`).

## Model

| member | source | states |
|---|---|---|
| `Refresh.Start` | background.js:78-110 | Succeeds iff clear, lookup, create and set all succeed. If clear rejects, nothing changes. If the tab is not open, the record and storage are untouched but the alarm is gone. Once the lookup succeeds, the record is active with the new interval and tab, whatever follows. The alarm exists iff create succeeded, with period = interval. Storage holds the record only on success. alarmName is never changed. |
| `Refresh.Stop` | background.js:112-129 | Succeeds iff clear and remove both succeed. If clear rejects, nothing changes. Otherwise: inactive, no tab, the interval and alarmName kept, the alarm removed, storage removed unless remove rejects, and the record coherent with the alarms. |
| `Refresh.RefreshTab` | background.js:131-153 | Does nothing when inactive or when the tab id is null or 0. An open tab with a successful reload gets one reload and no state change. A failed lookup or a failed reload ends in exactly a stop. Coherence is preserved. |
| `Refresh.OnAlarm` | background.js:36-40 | Refreshes only for the record's alarm name while active, and otherwise changes nothing. A reload is only ever logged for the targeted tab. |
| `Refresh.OnRemoved` | background.js:50-59 | Removing the targeted tab while active is exactly a stop plus one `refreshStopped` message. Any other id, or an inactive record, changes nothing. |
| `Refresh.OnStartup` | background.js:156-179 | A failed read, no stored record or an inactive stored record changes nothing. Otherwise the stored record replaces memory wholesale and its alarm is recreated with the stored interval. If the tab is gone or create rejects, the result is exactly a stop of the adopted record. |
| `Refresh.Dispatch` | background.js:11-33 | startRefresh and stopRefresh reply success iff the operation completed without throwing. getStatus replies with (isActive, interval, tabId) and changes nothing. An unknown action gets no reply and changes nothing. |
| `Background.RefreshManager.constructor` | background.js:3-8 | The script loads with the initial record (inactive, 30 seconds, no tab, alarm `tabAutoRefresh`) into the running browser. |
| `Background.RefreshManager.Start` | background.js:78-110 | The step-by-step assignments end in exactly `Refresh.Start`'s world and result. |
| `Background.RefreshManager.Stop` | background.js:112-129 | Ends in exactly `Refresh.Stop`'s world and result. |
| `Background.RefreshManager.RefreshTab` | background.js:131-153 | Ends in exactly `Refresh.RefreshTab`'s world. |
| `Background.RefreshManager.OnAlarm` | background.js:36-40 | Ends in exactly `Refresh.OnAlarm`'s world. |
| `Background.RefreshManager.OnRemoved` | background.js:50-59 | Ends in exactly `Refresh.OnRemoved`'s world. |
| `Background.RefreshManager.OnUpdated` | background.js:43-48 | The tab-updated listener changes nothing. |
| `Background.RefreshManager.OnFocusChanged` | background.js:62-76 | The focus listener changes nothing, for every window and every active tab. |
| `Background.RefreshManager.OnStartup` | background.js:156-179 | Ends in exactly `Refresh.OnStartup`'s world. |
| `Background.RefreshManager.GetStatus` | background.js:25-31 | Replies with the three visible fields and changes nothing. |
| `Background.RefreshManager.HandleMessage` | background.js:11-33 | Ends in exactly `Refresh.Dispatch`'s world and sends its reply. |
| `Popup.ValidateInterval` | popup.js:69-75 | True exactly for a parsed (non-NaN) value in [1, 3600]. |
| `Popup.ValidateIntervalAccepts` | popup.js:69-75 | Every integer from 1 to 3600, both ends included, is accepted. |
| `Popup.ValidateIntervalRejects` | popup.js:69-75 | NaN, values below 1 and values above 3600 are rejected. |
| `Popup.Controls.StartClicked` | popup.js:27-51 | A `startRefresh` request is sent iff the interval is valid and there is an active tab. It carries that interval and tab, so its interval lies in [1, 3600]. |
| `Popup.Controls.ValidateInput` | popup.js:63-67 | Start is disabled iff the interval is invalid or stop is enabled. The other flags are untouched. |
| `Popup.Controls.UpdateUI` | popup.js:77-91 | `true`: start disabled, stop enabled, input disabled. `false`: the exact opposite. |
| `Popup.ShownStatesComplementary` | popup.js:77-91 | The two states `updateUI` sets exclude each other, and in either one start and stop are never both enabled. |
| `Popup.EnableRuleAfterUpdate` | popup.js:63-67 | After the active state is shown, input can never enable start. After the stopped state is shown, start is enabled exactly for a valid interval. |
| `Popup.Controls.OnStartReply` | popup.js:42-48 | A success reply shows the active state. Anything else changes no flag. |
| `Popup.Controls.OnStopReply` | popup.js:53-61 | A success reply shows the stopped state. Anything else changes no flag. |
| `Popup.Controls.OnStatusReply` | popup.js:15-25 | An active status shows the active state. Anything else, a missing reply included, shows the stopped state. |
| `Popup.Controls.OnRefreshStopped` | popup.js:101-106 | A `refreshStopped` message shows the stopped state. |
| `Lifecycle.StopIdempotent` | background.js:112-129 | When no browser call rejects, a second stop changes nothing and succeeds. |
| `Lifecycle.StopWhenStopped` | background.js:112-129 | When no browser call rejects, stopping a coherent, mirrored, inactive world leaves it unchanged and succeeds. |
| `Lifecycle.StartReplacesPrevious` | background.js:78-103 | When no browser call rejects: start on tab a, then on tab b, leaves only b targeted, with the second interval. There is one alarm entry under the name, and storage holds the new record. |
| `Lifecycle.StartThenStatus` | background.js:11-31 | A successful start followed by getStatus reports active with the same interval and tab. |
| `Lifecycle.StartOnClosedTabLosesAlarm` | background.js:78-87 | Start on a closed tab while active fails and leaves the record untouched. Unless `alarms.clear` rejects, the alarm is gone, so the active record is no longer coherent. If `alarms.clear` rejects, nothing changes. |
| `Lifecycle.StartFailureAfterAssignment` | background.js:88-108 | When create or set rejects, the reply is failure but the record keeps the new tab and interval. Storage is unchanged, and the record is coherent iff create succeeded. |
| `Lifecycle.ReloadFailureStops` | background.js:136-152 | Our alarm firing while a reload rejects ends in exactly a stop. |
| `Lifecycle.StartThenCloseScenario` | background.js:50-59 | Start (30 s, tab 1), then close tab 1: the status is active with (30, tab 1) and then inactive with (30, no tab). `refreshStopped` was sent exactly once, and storage and alarms are empty. |
| `Lifecycle.RecoveryOutcomes` | background.js:156-179 | After a restart with an active stored record, when no browser call rejects: an open tab means the record is adopted with a live alarm at the stored interval. A missing tab means the result is inactive with storage cleared and no alarm. |
| `Lifecycle.RunKeepsSingleTimer` | background.js:78-179 | Along every run, whatever rejects, the only possible alarm is `tabAutoRefresh`. |
| `Lifecycle.RunKeepsIntervalsInRange` | popup.js:27-42 | If every start request passed the popup's check, no interval outside [1, 3600] is ever held, scheduled or stored along any run. |
| `Lifecycle.RunKeepsSynced` | background.js:78-179 | While nothing rejects and every start made while active names an open tab, the record, the alarm and storage agree after every event, restarts included. |
| `Lifecycle.FreshSatisfiesInvariants` | background.js:3-8 | The initial load satisfies all three invariants. |

## Left out

- Concurrency: each listener is one atomic step. Interleaving at `await` points is not modelled.
- Real browser semantics: tabs, alarms, storage and messaging are plain sets, maps, optionals and sequences. Chrome's minimum alarm period is not modelled.
- `tabs.get` rejects only for a tab that is not open. The `if (!tab)` branches (`background.js:85`, `139`) are merged into that outcome.
- The conversion of seconds to minutes (`interval / 60`) is left out. Alarm periods are kept as integer seconds.
- `parseInt` of the input text is left out. Its result is taken as given, with NaN as `None`.
- A rejected stop inside the tab-removed listener, `refreshTab` or startup recovery is not observed. Its partial effects are kept; the rejection itself goes nowhere.
- A rejected `refreshStopped` send is ignored, so the message is always appended to the outbox.
- Restart: the record returns to its initial value. Open tabs and storage are kept as they were, and alarms are assumed to survive a restart; Chrome does not guarantee this.
- The popup's DOM work is left out: element lookup, status text and CSS classes, and `showError` with its three-second re-poll of the status. Also left out: copying the status interval into the input (`popup.js:20`) and the initial flags, which come from `popup.html`; that file is not part of this model.
- Console logging and the `onInstalled` listener are left out.
