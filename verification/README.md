# The Spaghetti Detective plugin: alert gatekeeper and bug-reporting opt-in

This project models two small pieces of decision logic from the OctoPrint plugin of
The Spaghetti Detective, and proves what they promise.

**The alert gatekeeper** runs in the browser, in the settings panel's view model. Each
status reply from the plugin carries a list of alerts. An alert is a `(cause, level)`
pair. The view model hands each alert, in order, to `displayAlert`, which checks two
layers in turn:

- a durable flag in local storage, `ignored.<cause>.<level>`, written by the banner's
  "Never show again" button;
- an in-memory session map, `alertsShown[<cause>.<level>]`.

An alert that passes both checks is marked shown at once. Its banner is then built:

- the banner type is a notice for warnings and an error for every other level;
- the buttons are "Never show again", "OK" and "Close", led by "Details" at error level;
- the message comes from a fixed table of four `(cause, level)` pairs.

The banner is presented only when the table has a message for the pair.

**The opt-in state machine** runs on the server, in the plugin's API command handler.
Once the printer is linked (a truthy `auth_token`), a status fetch turns the setting
`sentry_opt` from `'out'` into `'asked'`, saves it, and reports the value from before the
fetch. `toggle_sentry_opt` turns `'in'` into `'out'` and anything else into `'in'`. The
browser offers the opt-in prompt exactly when the reported value is the string `"out"`.
Confirming the prompt sends `toggle_sentry_opt`.

Layout:

- `values.dfy` (module `Values`): the scalar JSON value and its truthiness, the alert
  and the status reply.
- `local_storage.dfy` (module `LocalStorage`): the plugin's item in local storage, as a
  class whose `Save` does the read-modify-write of `saveToLocalStorage`.
- `alert_gatekeeper.dfy` (module `AlertGatekeeper`): pure specification functions
  (`Display` for one alert, `DisplayAll` for a list, `AfterClick` for a button) and the
  class `SettingsViewModel`. Its methods update the session map and the store in place,
  and their postconditions tie the new state to those functions. `Session` chains the
  replies of one page load, each handled against the store as it then stands, and
  `AfterClicks` chains clicks.
- `plugin_apis.dfy` (module `PluginApis`): the command table, the specification
  functions `SentryStatus` and `Toggled`, and the class `Settings`, whose command
  methods update the settings in place.
- `sentry_opt_in.dfy` (module `SentryOptIn`): lemmas across the two sides of the prompt.

Modelling choices:

- Property paths are sequences of segments. `ignored.server.error` is
  `["ignored", "server", "error"]` and `server.error` is `["server", "error"]`.
  A stored object is a flat map from such paths to values. The model thus assumes that
  no `cause` or `level` contains a dot, and that no stored path is a prefix of another.
- A banner carries the alert that raised it and the identity of its message. `Body`
  gives the message's text, which is the literal HTML of the source.
- Local storage items are modelled already parsed. A missing item and one holding the
  empty string are both absent, and both read as `{}`. A present item is taken to hold an
  object.
- Levels are free strings, as in the code, not a two-valued enumeration. A level other
  than "warning" and "error" would be typed "error" and get no "Details" button, but it
  has no message either, so it presents nothing; it is still marked shown.
- A stored item that is not valid JSON makes the read throw, and nothing catches it. The
  model therefore does not treat a failed read as "not ignored".
- An unset plugin setting reads as None (`Null`). The defaults the plugin declares
  elsewhere are not part of this model: a caller sets them in the initial map.

## Model

| member | source | states |
|---|---|---|
| `LocalStorage.Storage.Object` | octoprint_thespaghettidetective/static/js/TheSpaghettiDetectiveSettings.js:207-213 | A missing or empty item reads as the empty object; otherwise the stored object |
| `LocalStorage.Lookup` | octoprint_thespaghettidetective/static/js/TheSpaghettiDetectiveSettings.js:216 | A path present in the object yields its stored value; an absent one yields the caller's default |
| `LocalStorage.Storage.Retrieve` | octoprint_thespaghettidetective/static/js/TheSpaghettiDetectiveSettings.js:215-217 | With no stored item, or no value at the path, the lookup yields the caller's default; otherwise the value stored at the path |
| `LocalStorage.Storage.Save` | octoprint_thespaghettidetective/static/js/TheSpaghettiDetectiveSettings.js:219-223 | The stored object changes at the one path and nowhere else, other items of local storage are untouched, and a later read of the path yields the saved value |
| `AlertGatekeeper.MsgTypeFor` | octoprint_thespaghettidetective/static/js/TheSpaghettiDetectiveSettings.js:113-116 | The banner is a notice exactly when the level is "warning", and an error for every other level |
| `AlertGatekeeper.ButtonsFor` | octoprint_thespaghettidetective/static/js/TheSpaghettiDetectiveSettings.js:118-147 | Four buttons with "Details" first exactly at level "error", three otherwise; the last three are always "Never show again", "OK", "Close" |
| `AlertGatekeeper.MessageFor` | octoprint_thespaghettidetective/static/js/TheSpaghettiDetectiveSettings.js:138-165 | A message exists exactly for (server, error), (webcam, error), (streaming, warning) and (cpu, warning), and each of these pairs gets its own message |
| `AlertGatekeeper.Body` | octoprint_thespaghettidetective/static/js/TheSpaghettiDetectiveSettings.js:149-163 | Every message text is non-empty, so the `if (text)` test passes exactly when a message exists |
| `AlertGatekeeper.BannerFor` | octoprint_thespaghettidetective/static/js/TheSpaghettiDetectiveSettings.js:167-176 | A banner exists exactly for the four known pairs; it names its alert and carries the pair's message and that level's type and buttons |
| `AlertGatekeeper.AfterClick` | octoprint_thespaghettidetective/static/js/TheSpaghettiDetectiveSettings.js:119-131 | "Never show again" makes the alert ignored; no other path is added, removed or changed; every other button leaves the stored object as it was |
| `AlertGatekeeper.Display` | octoprint_thespaghettidetective/static/js/TheSpaghettiDetectiveSettings.js:100-188 | A banner is presented exactly for a known pair that is neither ignored nor already shown, and it is the one `BannerFor` builds: that alert, its message, its level's type and buttons; afterwards the alert's key is shown exactly when it was before or the alert is not ignored |
| `AlertGatekeeper.DisplayAll` | octoprint_thespaghettidetective/static/js/TheSpaghettiDetectiveSettings.js:46-48 | A list presents no more banners than it has alerts, and every key shown before stays shown |
| `AlertGatekeeper.PromptsOptIn` | octoprint_thespaghettidetective/static/js/TheSpaghettiDetectiveSettings.js:32 | Only a reply with a truthy `sentry_opt` can prompt; a reply reporting 'in' or 'asked' never does (the exact test against the server is `SentryOptIn.PromptsIff`) |
| `AlertGatekeeper.ShownPathInjective` | octoprint_thespaghettidetective/static/js/TheSpaghettiDetectiveSettings.js:106 | Two alerts share a session key exactly when they have the same cause and level |
| `AlertGatekeeper.IgnoredSuppresses` | octoprint_thespaghettidetective/static/js/TheSpaghettiDetectiveSettings.js:101-104 | An ignored alert presents nothing and leaves the session map unchanged |
| `AlertGatekeeper.SecondDisplayIsNoOp` | octoprint_thespaghettidetective/static/js/TheSpaghettiDetectiveSettings.js:106-110 | Handling the same alert a second time in a session presents nothing and changes nothing |
| `AlertGatekeeper.PassedAlertMarkedShown` | octoprint_thespaghettidetective/static/js/TheSpaghettiDetectiveSettings.js:106-167 | An alert that passes both checks is marked shown even when it has no message; a banner is presented exactly for the known pairs |
| `AlertGatekeeper.DisplayGrows` | octoprint_thespaghettidetective/static/js/TheSpaghettiDetectiveSettings.js:100-110 | The session map only grows, and the only key one alert can add is its own, and only when it is not ignored |
| `AlertGatekeeper.DisplayAllShown` | octoprint_thespaghettidetective/static/js/TheSpaghettiDetectiveSettings.js:46-48 | After a list of alerts, a key is shown exactly when it was shown before or some non-ignored alert of the list has that key |
| `AlertGatekeeper.DisplayAllBannersFresh` | octoprint_thespaghettidetective/static/js/TheSpaghettiDetectiveSettings.js:100-112 | Every banner presented for a list belongs to one of its alerts with a known message, which was neither ignored nor shown before and is shown after, and is the banner `BannerFor` builds for that alert |
| `AlertGatekeeper.DisplayAllPresentsFresh` | octoprint_thespaghettidetective/static/js/TheSpaghettiDetectiveSettings.js:46-48 | Conversely, every alert of the list with a known message that was neither ignored nor shown before gets a banner |
| `AlertGatekeeper.DisplayAllOncePerKey` | octoprint_thespaghettidetective/static/js/TheSpaghettiDetectiveSettings.js:46-48 | However many duplicates the list holds, no two presented banners belong to the same (cause, level) pair |
| `AlertGatekeeper.IgnoredPersists` | octoprint_thespaghettidetective/static/js/TheSpaghettiDetectiveSettings.js:119-131 | A "never show again" flag, once set, survives a click on any button of any banner |
| `AlertGatekeeper.IgnoredSurvivesClicks` | octoprint_thespaghettidetective/static/js/TheSpaghettiDetectiveSettings.js:119-131 | The flag survives any sequence of later clicks |
| `AlertGatekeeper.IgnoredNeverPresented` | octoprint_thespaghettidetective/static/js/TheSpaghettiDetectiveSettings.js:101-104 | While its flag is set, an alert is presented by no list, from any session map |
| `AlertGatekeeper.NeverShowAgainIsPermanent` | octoprint_thespaghettidetective/static/js/TheSpaghettiDetectiveSettings.js:121-122 | After "Never show again" on an alert, and any clicks after it, the flag is still set and no later list presents the alert, from any session map, including a fresh session's empty one |
| `AlertGatekeeper.Session` | octoprint_thespaghettidetective/static/js/TheSpaghettiDetectiveSettings.js:90-97 | The replies of one page load (the first fetch at start-up and one per new-alert push) handled in order; the session map only grows across them |
| `AlertGatekeeper.SessionBannersShown` | octoprint_thespaghettidetective/static/js/TheSpaghettiDetectiveSettings.js:106-110 | Every banner presented in a session has its key shown at the end of the session |
| `AlertGatekeeper.SessionOncePerKey` | octoprint_thespaghettidetective/static/js/TheSpaghettiDetectiveSettings.js:106-110 | Across all the replies of a session, whatever the store holds at each, no two presented banners belong to the same (cause, level) pair |
| `AlertGatekeeper.SettingsViewModel.constructor` | octoprint_thespaghettidetective/static/js/TheSpaghettiDetectiveSettings.js:15 | A page load starts with an empty session map over the shared store |
| `AlertGatekeeper.SettingsViewModel.DisplayAlert` | octoprint_thespaghettidetective/static/js/TheSpaghettiDetectiveSettings.js:100-188 | The new session map and the presented banner are those `Display` gives for the store and the old session map |
| `AlertGatekeeper.SettingsViewModel.OnPluginStatus` | octoprint_thespaghettidetective/static/js/TheSpaghettiDetectiveSettings.js:28-49 | The prompt is raised exactly when the reply's `sentry_opt` is "out"; the loop's session map and banners are those `DisplayAll` gives for the reply's alerts |
| `AlertGatekeeper.SettingsViewModel.Click` | octoprint_thespaghettidetective/static/js/TheSpaghettiDetectiveSettings.js:119-131 | The stored object becomes `AfterClick` of the old one; "Never show again" rewrites only the plugin's item, and every other button leaves local storage exactly as it was |
| `PluginApis.ApiCommands` | octoprint_thespaghettidetective/plugin_apis.py:7-13 | Exactly the four commands are declared; `verify_code` requires the one parameter "code" and the other three none |
| `PluginApis.AdmittedCoversReads` | octoprint_thespaghettidetective/plugin_apis.py:7-13 | A request is admitted exactly for `verify_code` with a "code" parameter or for one of the three parameterless commands, and an admitted request carries every key the handler reads |
| `PluginApis.Toggled` | octoprint_thespaghettidetective/plugin_apis.py:50-51 | The result is 'out' exactly when the old value was 'in', and 'in' exactly otherwise |
| `PluginApis.ToggleNeverAsked` | octoprint_thespaghettidetective/plugin_apis.py:50-51 | A toggle never produces 'asked' |
| `PluginApis.ToggleTwice` | octoprint_thespaghettidetective/plugin_apis.py:50-51 | Toggling twice restores the value exactly when it was 'in' or 'out', so in particular from 'in' |
| `PluginApis.SentryStatus` | octoprint_thespaghettidetective/plugin_apis.py:41-46 | A fetch reports `sentry_opt` exactly when the auth token is truthy, and reports the value from before the fetch; it saves exactly when it reports 'out', and then stores 'asked'; no other setting changes; after a linked fetch the setting is never 'out' |
| `PluginApis.StatusUnlinked` | octoprint_thespaghettidetective/plugin_apis.py:41-48 | Without a truthy auth token the reply has no `sentry_opt` entry and the settings are neither changed nor saved |
| `PluginApis.StatusAsks` | octoprint_thespaghettidetective/plugin_apis.py:41-46 | Linked with 'out', the fetch stores and saves 'asked', reports the old 'out', and changes no other setting |
| `PluginApis.StatusReportsOtherValues` | octoprint_thespaghettidetective/plugin_apis.py:43-46 | Linked with any value other than 'out', the fetch reports it unchanged and neither changes nor saves the settings |
| `PluginApis.SecondStatusNeverReportsOut` | octoprint_thespaghettidetective/plugin_apis.py:41-46 | Whatever the settings, the second of two fetches in a row never reports 'out' |
| `PluginApis.Settings.GetPluginStatus` | octoprint_thespaghettidetective/plugin_apis.py:28-48 | The reply carries the given alerts and the `sentry_opt` report of `SentryStatus`; the new settings are its new values, saved exactly when it asks |
| `PluginApis.Settings.ToggleSentryOpt` | octoprint_thespaghettidetective/plugin_apis.py:50-52 | `sentry_opt` becomes `Toggled` of its old value, nothing else changes, and the settings are saved |
| `SentryOptIn.StatusReply` | octoprint_thespaghettidetective/plugin_apis.py:41-48 | The reply carries the alerts, and has a `sentry_opt` entry exactly when the auth token is truthy, holding the setting's value from before the fetch |
| `SentryOptIn.PromptsIff` | octoprint_thespaghettidetective/static/js/TheSpaghettiDetectiveSettings.js:32-45 | A fetch makes the browser prompt exactly when the printer is linked and the setting is 'out' |
| `SentryOptIn.PromptAtMostOnce` | octoprint_thespaghettidetective/static/js/TheSpaghettiDetectiveSettings.js:32 | Of two fetches in a row, at most one makes the browser prompt |
| `SentryOptIn.ConfirmTurnsReportingOn` | octoprint_thespaghettidetective/static/js/TheSpaghettiDetectiveSettings.js:42-44 | Confirming a prompt toggles the 'asked' the fetch left behind into 'in' |

## Left out

- Rendering: the notification library, the banner's title and display options, and the
  `before_open` hook that removes the "Close" button from the page. The model keeps
  "Close" in the button list, as the source's array does.
- DOM work: `selectPage`, `returnToSelection`, the toggle click handler, and the
  diagnostic report dialog that "Details" opens. The model's "Details" click changes no
  state.
- Network: the AJAX command helper, the push-message filter in
  `onDataUpdaterPluginMessage` that triggers a fetch, and the observable mapping of
  `streaming_status` and `error_stats`.
- A stored item that parses to something other than an object (`null`, a number, an
  array): the source then reads every path as its default and silently loses writes, which
  a map from paths to values cannot represent.
- `JSON.parse` of a corrupted stored item: the source does not handle it (the exception
  propagates), so the model claims no fail-open behaviour for it.
- Property-path syntax: a `cause` or `level` containing `.`, `[` or `]`, and a stored path
  that collides with a prefix of another, behave differently with nested objects than in this
  flat model.
- Server commands with network or foreign calls: `verify_code` and
  `test_server_connection`, and the other fields of the status reply (server status,
  linked printer, streaming status, error statistics). The alert list comes from the
  plugin's alert queue, which is not part of this model, so it is an input.
- The exception path of `on_api_command`, which reports to the error tracker and
  re-raises.
- `PluginApis.AdmittedCoversReads`: the rule that the host passes a command on only when
  it is declared and carries its declared parameters belongs to OctoPrint, not to the
  plugin; the model states it as the predicate `Admitted`.
- `force=True` on settings writes and the on-disk form of a save: a save is modelled
  as a snapshot of the values in memory.
- JSON carries values between server and browser unchanged, including Python's None as
  `null`; numbers are modelled as integers.
