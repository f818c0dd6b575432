/** The registry of dashboards, keyed by dashboard id: it hands out
    builders, files dashboards, and forwards refreshes and snapshot requests
    to the dashboard registered under an id, answering nothing for an id it
    does not know. */
module Managers {

  import opened Values
  import opened Dicts
  import opened Widgets
  import opened Dashboards
  import opened Builders

  /** One entry of the dashboard listing. */
  datatype Summary = Summary(id: string, name: string)

  class DashboardManager {
    var dashboards: Dict<Dashboard>

    /** Every widget of every registered dashboard. */
    ghost function WidgetObjects(): set<Widget>
      reads this, dashboards.m.Values
    {
      set k, j | k in dashboards.m && j in dashboards.m[k].widgets.m :: dashboards.m[k].widgets.m[j]
    }

    /** Every dashboard is registered under its own id. */
    ghost predicate Keyed()
      reads this
    {
      && dashboards.Valid()
      && (forall k :: k in dashboards.m ==> dashboards.m[k].config.id == k)
    }

    /** ... and is itself valid. */
    ghost predicate Valid()
      reads this, dashboards.m.Values, WidgetObjects()
    {
      && Keyed()
      && (forall k :: k in dashboards.m ==> dashboards.m[k].Valid())
    }

    constructor ()
      ensures dashboards == Empty() && Valid()
    {
      dashboards := Empty();
    }

    /** A builder for a new dashboard; nothing is registered yet. */
    method Create(id: string, name: string) returns (b: DashboardBuilder)
      ensures fresh(b) && b.Valid()
      ensures b.config == NewConfig(id, name) && b.widgets == [] && b.layout == []
    {
      b := new DashboardBuilder(id, name);
    }

    /** Files `d` under its own id, replacing any dashboard already there. */
    method Register(d: Dashboard)
      requires Valid() && d.Valid()
      modifies this
      ensures Valid()
      ensures dashboards == Put(old(dashboards), d.config.id, d)
      ensures Get(d.config.id) == Some(d)
    {
      ghost var before := dashboards;
      dashboards := Put(dashboards, d.config.id, d);
      forall k | k in dashboards.m ensures dashboards.m[k].Valid() {
        if k != d.config.id {
          assert dashboards.m[k] == before.m[k];
        }
      }
    }

    /** The dashboard registered under `id`, if any. */
    function Get(id: string): (r: Option<Dashboard>)
      reads this
      ensures r.Some? <==> id in dashboards.m
      ensures r.Some? ==> r.value == dashboards.m[id]
    {
      Dicts.Get(dashboards, id)
    }

    /** Refreshes every widget of the dashboard registered under `id` and
        returns what each attempt reported; for an unknown id it answers
        nothing and changes nothing. */
    method Refresh(id: string, outcome: string -> SourceResult, now: int) returns (r: Option<map<string, WidgetData>>)
      requires Valid()
      modifies if id in dashboards.m then dashboards.m[id].widgets.m.Values else {}
      ensures Valid() && dashboards == old(dashboards)
      ensures r.Some? <==> id in dashboards.m
      ensures r.Some? ==> r.value.Keys == dashboards.m[id].widgets.m.Keys
      ensures r.Some? ==> forall k :: k in r.value ==> r.value[k] == Attempt(k, outcome(k), now)
      ensures r.Some? ==> dashboards.m[id].Valid()
      ensures r.Some? ==> forall k :: k in dashboards.m[id].widgets.m ==>
                dashboards.m[id].States()[k] == AfterAttempt(old(dashboards.m[id].States())[k], k, outcome(k), now)
    {
      match Get(id) {
        case None =>
          r := None;
        case Some(d) =>
          var results := d.RefreshAll(outcome, now);
          r := Some(results);
          forall k, j | k in dashboards.m && j in dashboards.m[k].widgets.m
            ensures dashboards.m[k].widgets.m[j].Valid()
          {
            var w := dashboards.m[k].widgets.m[j];
            if w in d.widgets.m.Values {
              var j' :| j' in d.widgets.m && d.widgets.m[j'] == w;
            }
          }
      }
    }

    /** The id and name of every registered dashboard, in registration
        order. */
    function ListDashboards(): (r: seq<Summary>)
      requires dashboards.Valid()
      reads this, dashboards.m.Values
      ensures |r| == |dashboards.m| == |dashboards.keys|
      ensures forall i :: 0 <= i < |r| ==>
                dashboards.keys[i] in dashboards.m &&
                r[i] == Summary(dashboards.m[dashboards.keys[i]].config.id, dashboards.m[dashboards.keys[i]].config.name)
    {
      SizeMatches(dashboards);
      var ds := OrderedValues(dashboards);
      seq(|ds|, i requires 0 <= i < |ds| => Summary(ds[i].config.id, ds[i].config.name))
    }

    /** The snapshot, taken at `now`, of the dashboard registered under
        `id`; nothing for an unknown id. */
    function GetData(id: string, now: int): (r: Option<Snapshot>)
      reads this, dashboards.m.Values, if id in dashboards.m then dashboards.m[id].widgets.m.Values else {}
      ensures r.Some? <==> id in dashboards.m
      ensures r.Some? ==> r.value == dashboards.m[id].GetData(now)
    {
      if id in dashboards.m then Some(dashboards.m[id].GetData(now)) else None
    }
  }

  /** In a valid registry the listing has one entry per registered
      dashboard, each under the id it is registered with and with that
      dashboard's name, and no id twice. */
  lemma ListingMatchesRegistry(mgr: DashboardManager)
    requires mgr.Keyed()
    ensures var r := mgr.ListDashboards();
      && (forall k :: k in mgr.dashboards.m <==> exists i :: 0 <= i < |r| && r[i].id == k)
      && (forall i :: 0 <= i < |r| ==> r[i].name == mgr.dashboards.m[r[i].id].config.name)
      && (forall i, j :: 0 <= i < j < |r| ==> r[i].id != r[j].id)
  {
    var r := mgr.ListDashboards();
    forall i, j | 0 <= i < j < |r| ensures r[i].id != r[j].id {
      NoDupAt(mgr.dashboards.keys, i, j);
    }
    forall k | k in mgr.dashboards.m ensures exists i :: 0 <= i < |r| && r[i].id == k {
      var i :| 0 <= i < |mgr.dashboards.keys| && mgr.dashboards.keys[i] == k;
      assert r[i].id == k;
    }
  }
}
