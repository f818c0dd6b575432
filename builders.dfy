/** A fluent builder for dashboards: it collects widgets in a list and layout
    rows in another, then creates the dashboard and files the widgets in the
    order they were added, so that a later widget with an id already used
    replaces the earlier one. */
module Builders {

  import opened Values
  import opened Dicts
  import opened Widgets
  import opened Dashboards

  /** The configuration every builder shortcut gives its widget: the
      default interval and mode, no style, and the options given. */
  function ShortcutConfig(id: string, kind: WidgetType, title: string, options: map<string, Json>): (c: WidgetConfig)
    ensures c.id == id && c.kind == kind && c.title == title && c.options == options
    ensures c.refreshInterval == DefaultRefreshInterval && c.refreshMode == Interval
    ensures c.style == map[]
  {
    WidgetConfig(id, kind, title, DefaultRefreshInterval, Interval, map[], options)
  }

  /** The chart type a chart gets when none is given. */
  const DefaultChartType: string := "line"

  /** The gauge bounds a gauge gets when none are given. */
  const DefaultGaugeMin: int := 0
  const DefaultGaugeMax: int := 100

  /** A chart's options: the keyword options with the chart type added. */
  function ChartOptions(options: map<string, Json>, chartType: string): (r: map<string, Json>)
    ensures r.Keys == options.Keys + {"chart_type"}
    ensures r["chart_type"] == JStr(chartType)
    ensures forall k :: k in options && k != "chart_type" ==> r[k] == options[k]
  {
    options["chart_type" := JStr(chartType)]
  }

  /** A gauge's options: the keyword options with both bounds set, the
      bounds overriding any "min" or "max" among the keyword options. */
  function GaugeOptions(options: map<string, Json>, minVal: int, maxVal: int): (r: map<string, Json>)
    ensures r.Keys == options.Keys + {"min", "max"}
    ensures r["min"] == JNum(minVal) && r["max"] == JNum(maxVal)
    ensures forall k :: k in options && k != "min" && k != "max" ==> r[k] == options[k]
  {
    options["min" := JNum(minVal)]["max" := JNum(maxVal)]
  }

  /** The id-to-widget map that filing the first `n` widgets of `ws` one
      after the other into an empty dashboard produces. */
  function FiledMap(ws: seq<Widget>, n: nat): map<string, Widget>
    requires n <= |ws|
  {
    if n == 0 then map[] else FiledMap(ws, n - 1)[ws[n - 1].config.id := ws[n - 1]]
  }

  /** The key order that filing produces: each id at the place where it
      first occurs. */
  function FiledOrder(ws: seq<Widget>, n: nat): seq<string>
    requires n <= |ws|
  {
    if n == 0 then []
    else if ws[n - 1].config.id in FiledMap(ws, n - 1) then FiledOrder(ws, n - 1)
    else FiledOrder(ws, n - 1) + [ws[n - 1].config.id]
  }

  /** Filing widgets yields an entry for every id among them... */
  lemma {:induction false} FiledHasId(ws: seq<Widget>, n: nat, i: int)
    requires n <= |ws| && 0 <= i < n
    ensures ws[i].config.id in FiledMap(ws, n)
  {
    if i < n - 1 {
      FiledHasId(ws, n - 1, i);
    }
  }

  /** ... and no entry for any other id... */
  lemma {:induction false} FiledOnlyIds(ws: seq<Widget>, n: nat, k: string)
    requires n <= |ws| && k in FiledMap(ws, n)
    ensures exists i :: 0 <= i < n && ws[i].config.id == k
  {
    if k != ws[n - 1].config.id {
      FiledOnlyIds(ws, n - 1, k);
    }
  }

  /** ... every widget is filed under its own id... */
  lemma {:induction false} FiledUnderOwnId(ws: seq<Widget>, n: nat, k: string)
    requires n <= |ws| && k in FiledMap(ws, n)
    ensures FiledMap(ws, n)[k].config.id == k
  {
    if k != ws[n - 1].config.id {
      FiledUnderOwnId(ws, n - 1, k);
    }
  }

  /** ... and the entry for an id is the last widget that carries it. */
  lemma {:induction false} FiledLastWins(ws: seq<Widget>, n: nat, i: int)
    requires n <= |ws| && 0 <= i < n
    requires forall j :: i < j < n ==> ws[j].config.id != ws[i].config.id
    ensures ws[i].config.id in FiledMap(ws, n)
    ensures FiledMap(ws, n)[ws[i].config.id] == ws[i]
  {
    if i < n - 1 {
      FiledLastWins(ws, n - 1, i);
    }
  }

  class DashboardBuilder {
    var config: DashboardConfig
    var widgets: seq<Widget>
    var layout: seq<seq<string>>

    /** Every widget collected so far is consistent. */
    ghost predicate Valid()
      reads this, set i | 0 <= i < |widgets| :: widgets[i]
    {
      forall i :: 0 <= i < |widgets| ==> widgets[i].Valid()
    }

    constructor (id: string, name: string)
      ensures config == NewConfig(id, name) && widgets == [] && layout == []
      ensures Valid()
    {
      config := NewConfig(id, name);
      widgets := [];
      layout := [];
    }

    method Description(desc: string) returns (b: DashboardBuilder)
      requires Valid()
      modifies this
      ensures b == this && Valid()
      ensures config == old(config).(description := desc)
      ensures widgets == old(widgets) && layout == old(layout)
    {
      config := config.(description := desc);
      b := this;
    }

    /** Appends a fresh, never refreshed widget configured as `c`. */
    method Append(c: WidgetConfig)
      requires Valid()
      modifies this
      ensures Valid()
      ensures config == old(config) && layout == old(layout)
      ensures |widgets| == |old(widgets)| + 1 && widgets[..|old(widgets)|] == old(widgets)
      ensures fresh(widgets[|widgets| - 1])
      ensures widgets[|widgets| - 1].config == c && widgets[|widgets| - 1].State() == WidgetState(None, None)
    {
      var w := new Widget(c);
      widgets := widgets + [w];
    }

    method Metric(id: string, title: string, options: map<string, Json>) returns (b: DashboardBuilder)
      requires Valid()
      modifies this
      ensures b == this && Valid()
      ensures config == old(config) && layout == old(layout)
      ensures |widgets| == |old(widgets)| + 1 && widgets[..|old(widgets)|] == old(widgets)
      ensures fresh(widgets[|widgets| - 1])
      ensures widgets[|widgets| - 1].config == ShortcutConfig(id, WidgetType.Metric, title, options)
      ensures widgets[|widgets| - 1].State() == WidgetState(None, None)
    {
      Append(ShortcutConfig(id, WidgetType.Metric, title, options));
      b := this;
    }

    method Chart(id: string, title: string, options: map<string, Json>, chartType: string := DefaultChartType) returns (b: DashboardBuilder)
      requires Valid()
      modifies this
      ensures b == this && Valid()
      ensures config == old(config) && layout == old(layout)
      ensures |widgets| == |old(widgets)| + 1 && widgets[..|old(widgets)|] == old(widgets)
      ensures fresh(widgets[|widgets| - 1])
      ensures widgets[|widgets| - 1].config == ShortcutConfig(id, WidgetType.Chart, title, ChartOptions(options, chartType))
      ensures widgets[|widgets| - 1].State() == WidgetState(None, None)
    {
      Append(ShortcutConfig(id, WidgetType.Chart, title, ChartOptions(options, chartType)));
      b := this;
    }

    method Table(id: string, title: string, options: map<string, Json>) returns (b: DashboardBuilder)
      requires Valid()
      modifies this
      ensures b == this && Valid()
      ensures config == old(config) && layout == old(layout)
      ensures |widgets| == |old(widgets)| + 1 && widgets[..|old(widgets)|] == old(widgets)
      ensures fresh(widgets[|widgets| - 1])
      ensures widgets[|widgets| - 1].config == ShortcutConfig(id, WidgetType.Table, title, options)
      ensures widgets[|widgets| - 1].State() == WidgetState(None, None)
    {
      Append(ShortcutConfig(id, WidgetType.Table, title, options));
      b := this;
    }

    method Gauge(id: string, title: string, options: map<string, Json>,
                 minVal: int := DefaultGaugeMin, maxVal: int := DefaultGaugeMax) returns (b: DashboardBuilder)
      requires Valid()
      modifies this
      ensures b == this && Valid()
      ensures config == old(config) && layout == old(layout)
      ensures |widgets| == |old(widgets)| + 1 && widgets[..|old(widgets)|] == old(widgets)
      ensures fresh(widgets[|widgets| - 1])
      ensures widgets[|widgets| - 1].config == ShortcutConfig(id, WidgetType.Gauge, title, GaugeOptions(options, minVal, maxVal))
      ensures widgets[|widgets| - 1].State() == WidgetState(None, None)
    {
      Append(ShortcutConfig(id, WidgetType.Gauge, title, GaugeOptions(options, minVal, maxVal)));
      b := this;
    }

    /** Adds one layout row holding the given widget ids. */
    method Row(ids: seq<string>) returns (b: DashboardBuilder)
      requires Valid()
      modifies this
      ensures b == this && Valid()
      ensures layout == old(layout) + [ids]
      ensures config == old(config) && widgets == old(widgets)
    {
      layout := layout + [ids];
      b := this;
    }

    /** Copies the rows into the configuration, creates the dashboard and
        files every collected widget in order. */
    method Build() returns (d: Dashboard)
      requires Valid()
      modifies this
      ensures config == old(config).(layout := old(layout))
      ensures widgets == old(widgets) && layout == old(layout)
      ensures fresh(d) && d.Valid()
      ensures d.config == config
      ensures d.widgets == Dict(FiledOrder(widgets, |widgets|), FiledMap(widgets, |widgets|))
    {
      config := config.(layout := layout);
      d := new Dashboard(config);
      var i := 0;
      while i < |widgets|
        modifies d
        invariant 0 <= i <= |widgets|
        invariant fresh(d) && d.Valid() && d.config == config
        invariant d.widgets.m == FiledMap(widgets, i) && d.widgets.keys == FiledOrder(widgets, i)
      {
        d.AddWidget(widgets[i]);
        i := i + 1;
      }
    }
  }
}
