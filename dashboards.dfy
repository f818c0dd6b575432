/** A dashboard: a named table of widgets keyed by their ids, in insertion
    order, plus a presentational layout. It refreshes all of its widgets, or
    only the stale ones, in one pass. */
module Dashboards {

  import opened Values
  import opened Dicts
  import opened Widgets

  /** The interval, in seconds, a dashboard configuration gets by default. */
  const DefaultDashboardInterval: int := 60

  /** `layout` is a grid of widget ids, row by row; nothing ties it to the
      widgets actually present. `refreshInterval` is informational only. */
  datatype DashboardConfig = DashboardConfig(
    id: string,
    name: string,
    description: string,
    layout: seq<seq<string>>,
    refreshInterval: int,
    metadata: map<string, Json>)

  /** A configuration with every field but the identity at its default. */
  function NewConfig(id: string, name: string): (c: DashboardConfig)
    ensures c.id == id && c.name == name
    ensures c.description == "" && c.layout == [] && c.metadata == map[]
    ensures c.refreshInterval == DefaultDashboardInterval
  {
    DashboardConfig(id, name, "", [], DefaultDashboardInterval, map[])
  }

  /** The dashboard's snapshot: identity, every widget's entry by id, the
      layout and the time the snapshot was taken. */
  datatype Snapshot = Snapshot(
    id: string,
    name: string,
    widgets: map<string, map<string, Json>>,
    layout: seq<seq<string>>,
    timestamp: int)

  class Dashboard {
    const config: DashboardConfig
    var widgets: Dict<Widget>

    /** What every widget currently remembers, by id. */
    ghost function States(): (s: map<string, WidgetState>)
      reads this, widgets.m.Values
      ensures s.Keys == widgets.m.Keys
    {
      map k | k in widgets.m :: widgets.m[k].State()
    }

    /** Every widget is filed under its own id, and what it remembers is
        consistent with that id. */
    ghost predicate Valid()
      reads this, widgets.m.Values
    {
      && widgets.Valid()
      && (forall k :: k in widgets.m ==> widgets.m[k].config.id == k && widgets.m[k].Valid())
    }

    constructor (config: DashboardConfig)
      ensures this.config == config && widgets == Empty()
      ensures Valid()
    {
      this.config := config;
      widgets := Empty();
    }

    /** Files `w` under its own id, replacing any widget already there. */
    method AddWidget(w: Widget)
      requires Valid() && w.Valid()
      modifies this
      ensures Valid()
      ensures widgets == Put(old(widgets), w.config.id, w)
      ensures widgets.m[w.config.id] == w
      ensures forall k :: k in old(widgets.m) && k != w.config.id ==> k in widgets.m && widgets.m[k] == old(widgets.m[k])
    {
      widgets := Put(widgets, w.config.id, w);
    }

    /** Drops the widget filed under `id`, reporting whether there was one. */
    method RemoveWidget(id: string) returns (removed: bool)
      requires Valid()
      modifies this
      ensures Valid()
      ensures removed <==> id in old(widgets.m)
      ensures widgets == Remove(old(widgets), id).0
      ensures id !in widgets.m
      ensures forall k :: k in old(widgets.m) && k != id ==> k in widgets.m && widgets.m[k] == old(widgets.m[k])
    {
      widgets, removed := Remove(widgets, id).0, Remove(widgets, id).1;
    }

    /** One visit of a refresh pass: refreshes the widget filed under `k`,
        which alone changes. */
    method RefreshOne(k: string, result: SourceResult, now: int) returns (d: WidgetData)
      requires Valid() && k in widgets.m
      modifies widgets.m[k]
      ensures Valid() && widgets == old(widgets)
      ensures d == Attempt(k, result, now)
      ensures States() == old(States())[k := AfterAttempt(old(States())[k], k, result, now)]
    {
      d := widgets.m[k].Refresh(result, now);
    }

    /** One visit of a stale-only pass: refreshes the widget filed under `k`
        when it is due at `now`, and leaves it alone otherwise. */
    method RefreshIfDue(k: string, result: SourceResult, now: int) returns (d: Option<WidgetData>)
      requires Valid() && k in widgets.m
      modifies widgets.m[k]
      ensures Valid() && widgets == old(widgets)
      ensures d.Some? <==> DueAt(widgets.m[k].config, old(States())[k], now)
      ensures d.Some? ==> d.value == Attempt(k, result, now)
      ensures States() == old(States())[k := if d.Some? then AfterAttempt(old(States())[k], k, result, now) else old(States())[k]]
    {
      if widgets.m[k].NeedsRefresh(now) {
        var r := RefreshOne(k, result, now);
        d := Some(r);
      } else {
        d := None;
      }
    }

    /** Refreshes every widget in key order, whatever its staleness. The
        widget filed under `k` gets `outcome(k)` from its data source. One
        widget's failure does not stop the others: the result has an entry
        for every widget. */
    method RefreshAll(outcome: string -> SourceResult, now: int) returns (results: map<string, WidgetData>)
      requires Valid()
      modifies widgets.m.Values
      ensures Valid() && widgets == old(widgets)
      ensures results.Keys == widgets.m.Keys
      ensures forall k :: k in results ==> results[k] == Attempt(k, outcome(k), now)
      ensures forall k :: k in widgets.m ==>
                States()[k] == AfterAttempt(old(States())[k], k, outcome(k), now)
    {
      ghost var before := States();
      ghost var cur := before;
      ghost var done: set<string> := {};
      var keys := widgets.keys;
      results := map[];
      var i := 0;
      while i < |keys|
        invariant Valid() && widgets == old(widgets) && States() == cur
        invariant Pass(keys, i, done, before.Keys, before, cur, results, outcome, now)
      {
        var k := keys[i];
        var d := RefreshOne(k, outcome(k), now);
        PassStep(keys, i, done, before.Keys, before, cur, results, outcome, now, Some(d));
        cur := cur[k := AfterAttempt(cur[k], k, outcome(k), now)];
        results := results[k := d];
        done := done + {k};
        i := i + 1;
      }
    }

    /** Refreshes, in key order, only the widgets that are due at `now`;
        the others keep their state and are left out of the result. */
    method RefreshStale(outcome: string -> SourceResult, now: int) returns (results: map<string, WidgetData>)
      requires Valid()
      modifies widgets.m.Values
      ensures Valid() && widgets == old(widgets)
      ensures forall k :: k in results <==> k in widgets.m && DueAt(widgets.m[k].config, old(States())[k], now)
      ensures forall k :: k in results ==> results[k] == Attempt(k, outcome(k), now)
      ensures forall k :: k in widgets.m ==>
                States()[k] ==
                  if k in results then AfterAttempt(old(States())[k], k, outcome(k), now)
                  else old(States())[k]
    {
      ghost var before := States();
      ghost var due := set k | k in widgets.m && DueAt(widgets.m[k].config, before[k], now);
      ghost var cur := before;
      ghost var done: set<string> := {};
      var keys := widgets.keys;
      results := map[];
      var i := 0;
      while i < |keys|
        invariant Valid() && widgets == old(widgets) && States() == cur
        invariant Pass(keys, i, done, due, before, cur, results, outcome, now)
      {
        var k := keys[i];
        PassVisit(keys, i, done, due, before, cur, results, outcome, now);
        var d := RefreshIfDue(k, outcome(k), now);
        PassStep(keys, i, done, due, before, cur, results, outcome, now, d);
        if d.Some? {
          cur := cur[k := AfterAttempt(cur[k], k, outcome(k), now)];
          results := results[k := d.value];
        }
        done := done + {k};
        i := i + 1;
      }
      PassEnd(keys, done, due, before, cur, results, outcome, now);
    }

    /** The dashboard's current snapshot, taken at time `now`. */
    function GetData(now: int): (r: Snapshot)
      reads this, widgets.m.Values
      ensures r.id == config.id && r.name == config.name && r.layout == config.layout && r.timestamp == now
      ensures r.widgets.Keys == widgets.m.Keys
      ensures forall k :: k in r.widgets ==> r.widgets[k] == widgets.m[k].ToDict()
    {
      Snapshot(config.id, config.name, map k | k in widgets.m :: widgets.m[k].ToDict(), config.layout, now)
    }

    /** In a snapshot of a valid dashboard every entry names its own key,
        and no entry carries an error: only successes are ever stored. */
    lemma SnapshotEntries(now: int, k: string)
      requires Valid() && k in widgets.m
      ensures k in GetData(now).widgets
      ensures GetData(now).widgets[k]["id"] == JStr(k)
      ensures GetData(now).widgets[k]["error"] == JNull
      ensures widgets.m[k].lastRefresh.Some? ==>
                GetData(now).widgets[k]["timestamp"] == JNum(widgets.m[k].lastRefresh.value)
    {
    }
  }

  /** Progress of a stale-only pass over `keys` after `i` visits: the keys
      visited are exactly the first `i`; a key has a result exactly when it
      was visited and due; a visited due key went through one attempt, and
      every other key still remembers what it did before the pass. */
  ghost predicate Pass(keys: seq<string>, i: int, done: set<string>, due: set<string>,
                       before: map<string, WidgetState>, cur: map<string, WidgetState>,
                       results: map<string, WidgetData>, outcome: string -> SourceResult, now: int)
  {
    && 0 <= i <= |keys|
    && NoDup(keys)
    && (forall k :: k in keys <==> k in before)
    && cur.Keys == before.Keys
    && (forall j :: 0 <= j < i ==> keys[j] in done)
    && (forall j :: i <= j < |keys| ==> keys[j] !in done)
    && (forall k :: k in results <==> k in done && k in due)
    && (forall k :: k in results ==> results[k] == Attempt(k, outcome(k), now))
    && (forall k :: k in before ==>
          cur[k] == if k in results then AfterAttempt(before[k], k, outcome(k), now) else before[k])
  }

  /** One visit keeps the progress of a stale-only pass. */
  lemma PassStep(keys: seq<string>, i: int, done: set<string>, due: set<string>,
                 before: map<string, WidgetState>, cur: map<string, WidgetState>,
                 results: map<string, WidgetData>, outcome: string -> SourceResult, now: int,
                 d: Option<WidgetData>)
    requires Pass(keys, i, done, due, before, cur, results, outcome, now)
    requires i < |keys|
    requires d.Some? <==> keys[i] in due
    requires d.Some? ==> d.value == Attempt(keys[i], outcome(keys[i]), now)
    ensures var k := keys[i];
      Pass(keys, i + 1, done + {k}, due, before,
           if d.Some? then cur[k := AfterAttempt(cur[k], k, outcome(k), now)] else cur,
           if d.Some? then results[k := d.value] else results, outcome, now)
  {
    forall j | i < j < |keys| ensures keys[j] != keys[i] {
      NoDupAt(keys, i, j);
    }
  }

  /** The key a pass visits next has not been visited: it still remembers
      what it did before the pass. */
  lemma PassVisit(keys: seq<string>, i: int, done: set<string>, due: set<string>,
                  before: map<string, WidgetState>, cur: map<string, WidgetState>,
                  results: map<string, WidgetData>, outcome: string -> SourceResult, now: int)
    requires Pass(keys, i, done, due, before, cur, results, outcome, now) && i < |keys|
    ensures keys[i] in before && keys[i] !in results && cur[keys[i]] == before[keys[i]]
  {
  }

  /** A finished pass has a result for exactly the due keys, and has put
      exactly those through one attempt. */
  lemma PassEnd(keys: seq<string>, done: set<string>, due: set<string>,
                before: map<string, WidgetState>, cur: map<string, WidgetState>,
                results: map<string, WidgetData>, outcome: string -> SourceResult, now: int)
    requires Pass(keys, |keys|, done, due, before, cur, results, outcome, now) && due <= before.Keys
    ensures forall k :: k in results <==> k in before && k in due
    ensures forall k :: k in results ==> results[k] == Attempt(k, outcome(k), now)
    ensures forall k :: k in before ==>
              cur[k] == if k in results then AfterAttempt(before[k], k, outcome(k), now) else before[k]
  {
    forall k | k in before ensures k in done {
      var j :| 0 <= j < |keys| && keys[j] == k;
    }
  }
}
