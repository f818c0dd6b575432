/** A widget: one configured data-bearing unit of a dashboard. It remembers
    the last data its source delivered successfully and when that was, and
    decides from its refresh mode and interval whether it is due again.
    Time is a whole number of seconds given by the caller. */
module Widgets {

  import opened Values

  datatype WidgetType = Metric | Chart | Table | List | Gauge | Text {

    /** The string value the snapshot uses for the type. */
    function Name(): string {
      match this
      case Metric => "metric"
      case Chart => "chart"
      case Table => "table"
      case List => "list"
      case Gauge => "gauge"
      case Text => "text"
    }
  }

  datatype RefreshMode = Manual | Interval | Realtime

  /** The interval, in seconds, a widget gets when none is given. */
  const DefaultRefreshInterval: int := 60

  /** A widget's configuration. The data source itself is not stored: the
      outcome of calling it is given to `Widget.Refresh`. */
  datatype WidgetConfig = WidgetConfig(
    id: string,
    kind: WidgetType,
    title: string,
    refreshInterval: int,
    refreshMode: RefreshMode,
    style: map<string, Json>,
    options: map<string, Json>)

  /** The result of one refresh attempt. `data` is null when the attempt
      failed, and `error` then holds the failure's text. */
  datatype WidgetData = WidgetData(widgetId: string, data: Json, timestamp: int, error: Option<string>)

  /** What a widget remembers between refreshes. */
  datatype WidgetState = WidgetState(lastData: Option<WidgetData>, lastRefresh: Option<int>)

  /** The stored data, when there is any, is a success of widget `id`
      stamped with the last refresh time. */
  ghost predicate Consistent(id: string, s: WidgetState) {
    && (s.lastData.Some? <==> s.lastRefresh.Some?)
    && (s.lastData.Some? ==>
          && s.lastData.value.widgetId == id
          && s.lastData.value.error.None?
          && s.lastData.value.timestamp == s.lastRefresh.value)
  }

  /** Staleness: a manual widget is never due; any other widget is due when
      it was never refreshed, or when at least `interval` seconds have passed
      since its last successful refresh. Realtime gets no special case. */
  predicate Due(mode: RefreshMode, lastRefresh: Option<int>, interval: int, now: int) {
    if mode == Manual then false
    else if lastRefresh.None? then true
    else now - lastRefresh.value >= interval
  }

  /** Whether a widget configured as `c` and remembering `s` is due at `now`. */
  predicate DueAt(c: WidgetConfig, s: WidgetState, now: int) {
    Due(c.refreshMode, s.lastRefresh, c.refreshInterval, now)
  }

  /** The data a refresh attempt at `now` reports for widget `id`. */
  function Attempt(id: string, result: SourceResult, now: int): (d: WidgetData)
    ensures d.widgetId == id && d.timestamp == now
    ensures d.error.None? <==> result.Ok?
    ensures result.Ok? ==> d.data == result.value
    ensures result.Err? ==> d.data == JNull && d.error == Some(result.message)
  {
    match result
    case Ok(v) => WidgetData(id, v, now, None)
    case Err(msg) => WidgetData(id, JNull, now, Some(msg))
  }

  /** What the widget remembers after an attempt: a success replaces both the
      last data and the last refresh time; a failure changes nothing. */
  function AfterAttempt(s: WidgetState, id: string, result: SourceResult, now: int): WidgetState {
    if result.Ok? then WidgetState(Some(Attempt(id, result, now)), Some(now)) else s
  }

  class Widget {
    const config: WidgetConfig
    var lastData: Option<WidgetData>
    var lastRefresh: Option<int>

    function State(): WidgetState
      reads this
    {
      WidgetState(lastData, lastRefresh)
    }

    ghost predicate Valid()
      reads this
    {
      Consistent(config.id, State())
    }

    constructor (config: WidgetConfig)
      ensures this.config == config
      ensures lastData == None && lastRefresh == None
      ensures Valid()
    {
      this.config := config;
      lastData := None;
      lastRefresh := None;
    }

    /** Calls the data source (its outcome is `result`) at time `now`. The
        attempt is always reported, never raised; only a success is stored. */
    method Refresh(result: SourceResult, now: int) returns (d: WidgetData)
      requires Valid()
      modifies this
      ensures Valid()
      ensures d == Attempt(config.id, result, now)
      ensures State() == AfterAttempt(old(State()), config.id, result, now)
      ensures result.Ok? ==> GetData() == Some(d)
      ensures result.Ok? && config.refreshInterval > 0 ==> !NeedsRefresh(now)
      ensures result.Err? ==> forall t :: NeedsRefresh(t) == old(NeedsRefresh(t))
    {
      match result {
        case Ok(v) =>
          lastData := Some(WidgetData(config.id, v, now, None));
          lastRefresh := Some(now);
          d := lastData.value;
        case Err(msg) =>
          d := WidgetData(config.id, JNull, now, Some(msg));
      }
    }

    /** Whether the widget is stale at time `now`: never when manual, always
        when never refreshed, and otherwise once the interval has elapsed
        since the last successful refresh. */
    predicate NeedsRefresh(now: int): (r: bool)
      reads this
      ensures config.refreshMode == Manual ==> !r
      ensures config.refreshMode != Manual && lastRefresh.None? ==> r
      ensures config.refreshMode != Manual && lastRefresh.Some? ==>
                (r <==> now - lastRefresh.value >= config.refreshInterval)
    {
      DueAt(config, State(), now)
    }

    /** The last data stored, which is never an error. */
    function GetData(): (r: Option<WidgetData>)
      reads this
      ensures Valid() ==> (r.Some? <==> lastRefresh.Some?)
      ensures Valid() && r.Some? ==> r.value.error.None? && r.value.timestamp == lastRefresh.value
    {
      lastData
    }

    /** The widget's snapshot entry: identity, current data and options. */
    function ToDict(): (r: map<string, Json>)
      reads this
      ensures r.Keys == {"id", "type", "title", "data", "timestamp", "error", "options"}
      ensures r["id"] == JStr(config.id) && r["type"] == JStr(config.kind.Name())
      ensures r["title"] == JStr(config.title) && r["options"] == JObject(config.options)
      ensures lastData.None? ==> r["data"] == JNull && r["timestamp"] == JNull && r["error"] == JNull
      ensures Valid() && lastRefresh.Some? ==>
                r["data"] == lastData.value.data && r["timestamp"] == JNum(lastRefresh.value)
      ensures Valid() ==> r["error"] == JNull
    {
      map[
        "id" := JStr(config.id),
        "type" := JStr(config.kind.Name()),
        "title" := JStr(config.title),
        "data" := if lastData.Some? then lastData.value.data else JNull,
        "timestamp" := if lastData.Some? then JNum(lastData.value.timestamp) else JNull,
        "error" := if lastData.Some? then StrOrNull(lastData.value.error) else JNull,
        "options" := JObject(config.options)
      ]
    }
  }

  /** Realtime widgets are judged exactly like interval widgets: there is
      no separate realtime schedule. */
  lemma RealtimeActsAsInterval(lastRefresh: Option<int>, interval: int, now: int)
    ensures Due(Realtime, lastRefresh, interval, now) == Due(Interval, lastRefresh, interval, now)
  {
  }

  /** Staleness never wears off as time goes on. */
  lemma DueStaysDue(mode: RefreshMode, lastRefresh: Option<int>, interval: int, now: int, later: int)
    requires now <= later && Due(mode, lastRefresh, interval, now)
    ensures Due(mode, lastRefresh, interval, later)
  {
  }

  /** A success at `now` stores the reported data and restarts the clock:
      the widget is due again at `t` exactly when `t - now` reaches the
      interval (and never, when it is manual). */
  lemma SuccessRestartsClock(s: WidgetState, id: string, v: Json, now: int, mode: RefreshMode, interval: int, t: int)
    ensures AfterAttempt(s, id, Ok(v), now).lastData == Some(Attempt(id, Ok(v), now))
    ensures Due(mode, AfterAttempt(s, id, Ok(v), now).lastRefresh, interval, t) <==>
              mode != Manual && t - now >= interval
  {
  }

  /** A failure leaves the stored data and the staleness clock alone. */
  lemma FailureKeepsClock(s: WidgetState, id: string, msg: string, now: int, mode: RefreshMode, interval: int, t: int)
    ensures AfterAttempt(s, id, Err(msg), now) == s
    ensures Due(mode, AfterAttempt(s, id, Err(msg), now).lastRefresh, interval, t) == Due(mode, s.lastRefresh, interval, t)
  {
  }
}
