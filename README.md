# roaddashboard, modelled in Dafny

This project models the widget and dashboard state machine of roaddashboard
(`src/roaddashboard/dashboard.py`) and proves properties of it.

- **Widget.** A widget fetches a value from its data source. It remembers the
  last successful result and when it arrived. Its refresh mode and interval
  decide whether it is stale.
- **Dashboard.** A dashboard files widgets by id in insertion order. It
  refreshes all of its widgets, or only the stale ones, in one pass, and it
  renders a snapshot.
- **Builder.** The fluent builder collects widgets and layout rows and then
  assembles the dashboard.
- **Manager.** The manager keeps a registry of dashboards by id.

Files and modules:

- `values.dfy` (`Values`): `Option`; `Json`, which stands for the loosely typed
  values (Python's `Any`) that sources return and snapshots hold; and
  `SourceResult`, the outcome of one call to a data source.
- `dicts.dfy` (`Dicts`): Python's insertion-ordered `dict` as a key sequence
  plus a map, with `d[k] = v`, `del`, `get` and `values()`.
- `widgets.dfy` (`Widgets`): `WidgetType`, `RefreshMode`, `WidgetConfig`,
  `WidgetData`, the staleness decision `Due`, and the class `Widget`. Its
  fields `lastData` and `lastRefresh` change in place.
- `dashboards.dfy` (`Dashboards`): `DashboardConfig`, `Snapshot` and the class
  `Dashboard`. Its `widgets` field is reassigned by add and remove. The two
  refresh passes are loops that call `Widget.Refresh` on each widget in key
  order.
- `builders.dfy` (`Builders`): the class `DashboardBuilder`, the option
  defaults of its shortcuts, and `FiledMap`/`FiledOrder`. These two give the
  table that `Build` produces.
- `managers.dfy` (`Managers`): the class `DashboardManager`.

Modelling choices:

- **Time.** Time is a whole number of seconds, given to each operation as
  `now`.
- **Data sources.** A data source is not stored. Its outcome is given
  instead:
  - to `Widget.Refresh` as a `SourceResult`;
  - to the dashboard passes as a function from widget id to `SourceResult`.
- **Floats.** Numbers are integers, so the gauge bounds are integers.
- **`Valid()` predicates.** These are ghost invariants and are not in the
  source. They hold for every object built through the constructors, and
  every operation keeps them:
  - every widget is filed under its own id;
  - what a widget remembers is a success of that widget, stamped with its
    last refresh time.

Two consequences of the code are worth stating:

- **A failed refresh leaves the stored data and the staleness clock alone.**
  `Widget.refresh` assigns `_last_data` and `_last_refresh` only on the
  success path (`dashboard.py` lines 76-81). So a failing widget stays due
  and is retried on every stale-only pass. This is `FailureKeepsClock`, and
  the last ensures of `Widget.Refresh`.
- **A snapshot's `"error"` is always null.** `to_dict` reads the error from
  `_last_data`, and that only ever holds a success. This is the last ensures
  of `Widget.ToDict` and of `Dashboards.Dashboard.SnapshotEntries`.

## Model

| member | source | states |
|---|---|---|
| Values.StrOrNull | src/roaddashboard/dashboard.py:101 | An optional string renders as null exactly when it is absent, and otherwise as that string |
| Dicts.Put | src/roaddashboard/dashboard.py:124 | `d[k] = v`: the key order stays free of repetitions. `k` maps to `v` and every other key keeps its value. A new key goes to the end of the order; an existing key keeps its place |
| Dicts.Remove | src/roaddashboard/dashboard.py:128-131 | `if k in d: del d[k]`. Reports true exactly when `k` was present. Afterwards the key set is the old one without `k`, the other values are unchanged, and the remaining keys keep their order (the old order with `k` deleted). When `k` was absent the dict is unchanged |
| Dicts.Without | src/roaddashboard/dashboard.py:129 | Deleting a key from the order keeps every other key, keeps the order free of repetitions, and leaves an order without that key untouched |
| Dicts.WithoutConcat | src/roaddashboard/dashboard.py:129 | Deleting a key acts on each part of the order separately, so the remaining keys keep their relative order |
| Dicts.Get | src/roaddashboard/dashboard.py:213 | `d.get(k)` is present exactly when `k` is a key, and is then `d[k]` |
| Dicts.OrderedValues | src/roaddashboard/dashboard.py:232 | `d.values()` lists the value of each key in key order |
| Dicts.SizeMatches | src/roaddashboard/dashboard.py:232 | A dict has exactly as many keys in its order as it has entries, so a listing over `values()` has one item per entry |
| Dicts.PutThenGet | src/roaddashboard/dashboard.py:210-213 | After `d[k] = v`, `get(k)` yields `v`, and `get` of any other key is unchanged |
| Dicts.RemoveThenGet | src/roaddashboard/dashboard.py:128-131 | After deleting `k`, `get(k)` yields nothing, and `get` of any other key is unchanged |
| Widgets.Attempt | src/roaddashboard/dashboard.py:76-81 | What an attempt reports: the widget's id and the time. On success it has the value and no error. On failure it has null data and the failure's text as the error |
| Widgets.Widget.constructor | src/roaddashboard/dashboard.py:65-68 | A new widget has its configuration, no data and no refresh time |
| Widgets.Widget.Refresh | src/roaddashboard/dashboard.py:70-81 | Always returns the attempt's report. A success replaces both the stored data and the refresh time, so `GetData` returns the report and the widget is not due again at the same time for any positive interval. A failure changes nothing, and staleness at every time stays what it was |
| Widgets.Widget.NeedsRefresh | src/roaddashboard/dashboard.py:83-89 | Never due when manual. Due when never refreshed. Otherwise due exactly when at least the interval has elapsed since the last successful refresh |
| Widgets.Widget.GetData | src/roaddashboard/dashboard.py:91-92 | There is stored data exactly when the widget has a refresh time. That data never carries an error and is stamped with that time |
| Widgets.Widget.ToDict | src/roaddashboard/dashboard.py:94-103 | The entry has exactly the keys id, type, title, data, timestamp, error and options. Identity and options come from the configuration. Data and timestamp are null before the first success and the stored ones after it. The error is always null |
| Widgets.RealtimeActsAsInterval | src/roaddashboard/dashboard.py:84-89 | A realtime widget is due exactly when an interval widget with the same history and interval would be: the staleness test has no realtime case |
| Widgets.DueStaysDue | src/roaddashboard/dashboard.py:88-89 | Once due, a widget stays due as time goes on |
| Widgets.SuccessRestartsClock | src/roaddashboard/dashboard.py:76-78 | After a success at `now` the widget stores that report, and it is due at `t` exactly when it is not manual and `t - now` reaches the interval |
| Widgets.FailureKeepsClock | src/roaddashboard/dashboard.py:79-81 | A failure leaves what the widget remembers untouched, so its staleness at any time is unchanged |
| Dashboards.NewConfig | src/roaddashboard/dashboard.py:106-113 | A dashboard configuration has an empty description, layout and metadata, and the default interval of 60 |
| Dashboards.Dashboard.constructor | src/roaddashboard/dashboard.py:117-120 | A new dashboard has its configuration and no widgets |
| Dashboards.Dashboard.AddWidget | src/roaddashboard/dashboard.py:122-124 | The widget is filed under its own id, replacing any widget there. Every other entry is unchanged |
| Dashboards.Dashboard.RemoveWidget | src/roaddashboard/dashboard.py:126-131 | Reports true exactly when the id was filed. Afterwards the id is absent and every other entry is unchanged |
| Dashboards.Dashboard.RefreshOne | src/roaddashboard/dashboard.py:136 | One visit of a pass: the widget under `k` goes through one attempt, and no other widget's state changes |
| Dashboards.Dashboard.RefreshIfDue | src/roaddashboard/dashboard.py:142-143 | One visit of a stale-only pass: an attempt is made exactly when the widget was due. Otherwise nothing changes |
| Dashboards.Dashboard.RefreshAll | src/roaddashboard/dashboard.py:133-137 | The result has an entry for exactly the filed ids, each the report of that widget's attempt, so one failure does not stop the rest. Every widget's state is its old state after one attempt |
| Dashboards.Dashboard.RefreshStale | src/roaddashboard/dashboard.py:139-144 | The result has an entry for exactly the widgets that were due at `now`, each that widget's report. Those widgets went through one attempt; every skipped widget keeps its state |
| Dashboards.Dashboard.GetData | src/roaddashboard/dashboard.py:146-153 | The snapshot carries the dashboard's id, name, layout and time, and has exactly one entry per filed widget, namely that widget's rendering |
| Dashboards.Dashboard.SnapshotEntries | src/roaddashboard/dashboard.py:146-153 | In a snapshot of a valid dashboard each entry names its own key and carries no error. Once refreshed, its timestamp is the widget's last refresh time |
| Dashboards.PassStep | src/roaddashboard/dashboard.py:140-144 | One visit keeps the pass invariant. The visited keys are exactly a prefix of the key order. A key has a result exactly when it was visited and due. Visited due keys went through one attempt; every other key is as before |
| Dashboards.PassVisit | src/roaddashboard/dashboard.py:141 | Because keys do not repeat, the key a pass visits next has not been visited and still has its state from before the pass |
| Dashboards.PassEnd | src/roaddashboard/dashboard.py:144 | A finished pass has a result for exactly the due keys, and those keys, and only those, went through one attempt |
| Builders.ShortcutConfig | src/roaddashboard/dashboard.py:167 | A shortcut widget gets the given id, type, title and options, the default interval of 60, interval mode and no style |
| Builders.ChartOptions | src/roaddashboard/dashboard.py:172 | A chart's options are the given ones plus `chart_type`, set to the chart type |
| Builders.GaugeOptions | src/roaddashboard/dashboard.py:183 | A gauge's options are the given ones with `min` and `max` set to the bounds. These override any `min` or `max` among the given options |
| Builders.FiledHasId | src/roaddashboard/dashboard.py:195-196 | Filing a list of widgets yields an entry for every id in the list |
| Builders.FiledOnlyIds | src/roaddashboard/dashboard.py:195-196 | Filing yields no entry for an id that is not in the list |
| Builders.FiledUnderOwnId | src/roaddashboard/dashboard.py:195-196 | Filing puts every widget under its own id |
| Builders.FiledLastWins | src/roaddashboard/dashboard.py:195-196 | When an id occurs more than once, the entry for it is the last widget in the list that carries it |
| Builders.DashboardBuilder.constructor | src/roaddashboard/dashboard.py:157-160 | A new builder has the default configuration for the id and name, no widgets and no rows |
| Builders.DashboardBuilder.Description | src/roaddashboard/dashboard.py:162-164 | Sets only the description, keeps the builder valid and returns the same builder |
| Builders.DashboardBuilder.Append | src/roaddashboard/dashboard.py:168 | Appends one new, never refreshed widget with the given configuration and keeps the earlier ones |
| Builders.DashboardBuilder.Metric | src/roaddashboard/dashboard.py:166-169 | Appends a new metric widget with the shortcut defaults and returns the same builder |
| Builders.DashboardBuilder.Chart | src/roaddashboard/dashboard.py:171-175 | Appends a new chart widget whose options carry the chart type, by default "line", and returns the same builder |
| Builders.DashboardBuilder.Table | src/roaddashboard/dashboard.py:177-180 | Appends a new table widget with the shortcut defaults and returns the same builder |
| Builders.DashboardBuilder.Gauge | src/roaddashboard/dashboard.py:182-186 | Appends a new gauge widget whose options carry the bounds, by default 0 and 100, and returns the same builder |
| Builders.DashboardBuilder.Row | src/roaddashboard/dashboard.py:188-190 | Appends one layout row holding the given ids, in order, keeps the builder valid and returns the same builder |
| Builders.DashboardBuilder.Build | src/roaddashboard/dashboard.py:192-197 | The builder's configuration takes the rows as its layout, and a new valid dashboard gets that configuration. Its widget table is the list filed in order: the keys in first-occurrence order, each id mapped to its last widget |
| Managers.DashboardManager.constructor | src/roaddashboard/dashboard.py:201-204 | A new registry is empty |
| Managers.DashboardManager.Create | src/roaddashboard/dashboard.py:206-207 | Returns a new builder for the id and name and registers nothing |
| Managers.DashboardManager.Register | src/roaddashboard/dashboard.py:209-210 | The dashboard is filed under its own id, replacing any there, and `Get` of that id then returns it |
| Managers.DashboardManager.Get | src/roaddashboard/dashboard.py:212-213 | Returns the dashboard registered under the id, or nothing when the id is unknown |
| Managers.DashboardManager.Refresh | src/roaddashboard/dashboard.py:215-219 | An unknown id yields nothing and changes nothing. A known id yields the results of that dashboard's full pass, and the registry stays valid |
| Managers.DashboardManager.ListDashboards | src/roaddashboard/dashboard.py:231-232 | One entry per registered dashboard, in registration order, each with that dashboard's id and name |
| Managers.ListingMatchesRegistry | src/roaddashboard/dashboard.py:231-232 | The listing's ids are exactly the registered ids, with no id twice, and each entry has the name of the dashboard registered under its id |
| Managers.DashboardManager.GetData | src/roaddashboard/dashboard.py:234-238 | The snapshot of the dashboard registered under the id, or nothing when the id is unknown |

## Left out

- Asynchronous sources: awaiting a coroutine that a source returns is not modelled (`dashboard.py` lines 73-74). The outcome of a call is given directly.
- Data sources themselves are arbitrary user code and are not modelled. Only their outcome, success with a value or failure with a message, is.
- `start_auto_refresh` and `stop_auto_refresh` are not modelled. They are an unbounded background loop with `asyncio.sleep`. A single pass of it, a stale-only pass over every dashboard, is not modelled either: widgets may be shared between dashboards, and the per-dashboard passes would then interact.
- The dashboard's `threading.Lock` is not modelled. The model is sequential, and the guarded bodies are modelled as plain updates.
- Logging of refresh failures is not modelled.
- Clock reads are replaced by the `now` parameter. `WidgetData.timestamp` and `_last_refresh` come from two separate `datetime.now()` calls in the source; in the model both are the same `now`.
- Elapsed time is in whole seconds. The source compares fractional seconds (`total_seconds()`) with the interval.
- Timestamps in snapshots are numbers, not ISO strings, and the snapshot's own time is the given `now`.
- Floating-point values (gauge bounds, `MetricValue`) are integers. `MetricValue` and `example_usage` are demo code and are not modelled.
- The contents of `style`, `options` and `metadata` are opaque maps. Only the keys the builder sets are modelled.
- The order of keys inside a snapshot's dictionaries is not modelled; they are maps.
- The builder's configuration object is shared with the dashboard it builds (Python aliasing). Here configurations are values, so later builder calls cannot reach a built dashboard.
- Dashboards.Dashboard.RefreshAll: the result map has the right keys and values, but its insertion order is not stated.
- Dashboards.Dashboard.RefreshStale: the result map has the right keys and values, but its insertion order is not stated.
- Managers.DashboardManager.Refresh: the result has the right keys and values, but its insertion order (the dashboard's key order) is not stated, as for `RefreshAll`, which it forwards to.
- Each pass takes one `now` for every staleness test and every time stamp. The source reads the clock again at each visit (`dashboard.py` lines 77, 88 and 142). So a widget whose interval runs out during a slow stale-only pass is refreshed by the source and skipped by the model.
- Exceptions that `except Exception` does not catch (`dashboard.py` line 79), such as `asyncio.CancelledError` and other `BaseException` subclasses, are not modelled. In the source they escape `refresh` and abort a pass halfway. In the model every attempt ends in a reported success or failure.
