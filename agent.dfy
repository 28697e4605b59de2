/** The agent routes: the /inventory filter and join pipeline and the /dashboard/stats counts. */
module Agent {
  import opened Wrappers
  import opened JsText
  import opened JsNumber
  import opened Seqs
  import opened Catalog

  /** The query string of /inventory; an absent parameter is None. */
  datatype InventoryQuery = InventoryQuery(
    project: Option<string>, location: Option<string>, priceMin: Option<string>, priceMax: Option<string>,
    category: Option<string>)

  /** A query parameter is applied only when it is truthy, that is present and non-empty. */
  predicate Given(param: Option<string>)
  {
    param.Some? && param.value != ""
  }

  /** A unit with the name, location and handover date of its project; None is null. */
  datatype InventoryEntry = InventoryEntry(unit: Unit, projectName: string, projectLocation: Option<string>, handoverDate: Option<string>)

  datatype InventoryResponse = InventoryResponse(inventory: seq<InventoryEntry>, total: nat)

  /** p.name.toLowerCase().includes(query.toLowerCase()). */
  predicate NameMatches(p: Project, query: string)
  {
    Contains(ToLower(p.name), ToLower(query))
  }

  function MatchesName(query: string): Project -> bool
  {
    (p: Project) => NameMatches(p, query)
  }

  /** filteredProjects.some(p => p.id === u.project_id). */
  predicate BelongsToSome(u: Unit, projects: seq<Project>)
  {
    exists i :: 0 <= i < |projects| && projects[i].id == u.projectId
  }

  /** The price bounds: a bound that parseFloat reads as NaN makes every comparison false. */
  predicate AtLeast(u: Unit, bound: string)
  {
    ParseFloat(bound).Some? && u.currentPrice >= ParseFloat(bound).value
  }

  predicate AtMost(u: Unit, bound: string)
  {
    ParseFloat(bound).Some? && u.currentPrice <= ParseFloat(bound).value
  }

  function ProjectFilter(projects: seq<Project>, query: string): Unit -> bool
  {
    (u: Unit) => BelongsToSome(u, Filter(projects, MatchesName(query)))
  }

  function MinFilter(bound: string): Unit -> bool
  {
    (u: Unit) => AtLeast(u, bound)
  }

  function MaxFilter(bound: string): Unit -> bool
  {
    (u: Unit) => AtMost(u, bound)
  }

  /** The units left after the status filter and each filter whose parameter is given: units
      of the array that are AVAILABLE and pass every given filter. */
  function SelectedUnits(units: seq<Unit>, projects: seq<Project>, q: InventoryQuery): (r: seq<Unit>)
    ensures |r| <= |units|
    ensures forall u :: u in r ==>
      && u in units && IsAvailable(u)
      && (Given(q.project) ==> BelongsToSome(u, Filter(projects, MatchesName(q.project.value))))
      && (Given(q.priceMin) ==> AtLeast(u, q.priceMin.value))
      && (Given(q.priceMax) ==> AtMost(u, q.priceMax.value))
  {
    var available := Filter(units, IsAvailable);
    FilterMembershipAll(units, IsAvailable);
    FilterMembershipAll(available, ProjectFilter(projects, if Given(q.project) then q.project.value else ""));
    var byProject0 := if Given(q.project) then Filter(available, ProjectFilter(projects, q.project.value)) else available;
    FilterMembershipAll(byProject0, MinFilter(if Given(q.priceMin) then q.priceMin.value else ""));
    var byMin0 := if Given(q.priceMin) then Filter(byProject0, MinFilter(q.priceMin.value)) else byProject0;
    FilterMembershipAll(byMin0, MaxFilter(if Given(q.priceMax) then q.priceMax.value else ""));
    var byProject := if Given(q.project) then Filter(available, ProjectFilter(projects, q.project.value)) else available;
    var byMin := if Given(q.priceMin) then Filter(byProject, MinFilter(q.priceMin.value)) else byProject;
    if Given(q.priceMax) then Filter(byMin, MaxFilter(q.priceMax.value)) else byMin
  }

  /** projects.find(p => p.id === id). */
  function FindProject(projects: seq<Project>, id: int): (r: Option<Project>)
    ensures r.Some? ==> exists i :: (0 <= i < |projects| && projects[i] == r.value && r.value.id == id
      && forall j :: 0 <= j < i ==> projects[j].id != id)
    ensures r.None? <==> forall i :: 0 <= i < |projects| ==> projects[i].id != id
  {
    if projects == [] then None
    else if projects[0].id == id then Some(projects[0])
    else
      var r := FindProject(projects[1..], id);
      assert r.Some? ==> projects[1..][0..] == projects[1..];
      r
  }

  /** The join with the first project of the unit's project id, or 'Unknown Project'. */
  function ToEntry(unit: Unit, projects: seq<Project>): InventoryEntry
  {
    match FindProject(projects, unit.projectId)
    case Some(p) => InventoryEntry(unit, p.name, Some(p.location), p.handoverDate)
    case None => InventoryEntry(unit, "Unknown Project", None, None)
  }

  /** GET /inventory. */
  function Inventory(units: seq<Unit>, projects: seq<Project>, q: InventoryQuery): (r: InventoryResponse)
    ensures |r.inventory| == |SelectedUnits(units, projects, q)|
    ensures forall k :: 0 <= k < |r.inventory| ==> r.inventory[k].unit == SelectedUnits(units, projects, q)[k]
  {
    var selected := SelectedUnits(units, projects, q);
    var inventory := seq(|selected|, k requires 0 <= k < |selected| => ToEntry(selected[k], projects));
    InventoryResponse(inventory, |inventory|)
  }

  /** The conjunction of every applied filter. */
  predicate Selected(u: Unit, projects: seq<Project>, q: InventoryQuery)
  {
    && IsAvailable(u)
    && (Given(q.project) ==> BelongsToSome(u, Filter(projects, MatchesName(q.project.value))))
    && (Given(q.priceMin) ==> AtLeast(u, q.priceMin.value))
    && (Given(q.priceMax) ==> AtMost(u, q.priceMax.value))
  }

  function SelectedBy(projects: seq<Project>, q: InventoryQuery): Unit -> bool
  {
    (u: Unit) => Selected(u, projects, q)
  }

  /** The pipeline of filters is one filter by their conjunction, so it keeps the order of the
      units array. */
  lemma {:induction false} SelectedUnitsFilter(units: seq<Unit>, projects: seq<Project>, q: InventoryQuery)
    ensures SelectedUnits(units, projects, q) == Filter(units, SelectedBy(projects, q))
  {
    if units != [] {
      var init := units[..|units| - 1];
      var u := units[|units| - 1];
      SelectedUnitsFilter(init, projects, q);
      assert units == init + [u];
      SelectedSnoc(init, u, projects, q);
    }
  }

  lemma SelectedSnoc(init: seq<Unit>, u: Unit, projects: seq<Project>, q: InventoryQuery)
    ensures SelectedUnits(init + [u], projects, q) ==
      SelectedUnits(init, projects, q) + if Selected(u, projects, q) then [u] else []
  {
    FilterSnoc(init, u, IsAvailable);
    var available := Filter(init, IsAvailable);
    var more := if IsAvailable(u) then [u] else [];
    if Given(q.project) {
      FilterConcat(available, more, ProjectFilter(projects, q.project.value));
    }
    var byProject := if Given(q.project) then Filter(available, ProjectFilter(projects, q.project.value)) else available;
    var more1 := if IsAvailable(u) && (Given(q.project) ==> ProjectFilter(projects, q.project.value)(u)) then [u] else [];
    if Given(q.priceMin) {
      FilterConcat(byProject, more1, MinFilter(q.priceMin.value));
    }
    var byMin := if Given(q.priceMin) then Filter(byProject, MinFilter(q.priceMin.value)) else byProject;
    var more2 := if IsAvailable(u) && (Given(q.project) ==> ProjectFilter(projects, q.project.value)(u))
      && (Given(q.priceMin) ==> AtLeast(u, q.priceMin.value)) then [u] else [];
    if Given(q.priceMax) {
      FilterConcat(byMin, more2, MaxFilter(q.priceMax.value));
    }
  }

  /** A unit is listed exactly when it is AVAILABLE, belongs to a project whose lowercased name
      contains the lowercased project query (when given), and has a current price within the
      given bounds. */
  lemma InventoryMembership(units: seq<Unit>, projects: seq<Project>, q: InventoryQuery, u: Unit)
    ensures (exists k :: 0 <= k < |Inventory(units, projects, q).inventory| && Inventory(units, projects, q).inventory[k].unit == u)
      <==> (&& u in units && IsAvailable(u)
            && (Given(q.project) ==> exists p :: p in projects && p.id == u.projectId && Contains(ToLower(p.name), ToLower(q.project.value)))
            && (Given(q.priceMin) ==> ParseFloat(q.priceMin.value).Some? && u.currentPrice >= ParseFloat(q.priceMin.value).value)
            && (Given(q.priceMax) ==> ParseFloat(q.priceMax.value).Some? && u.currentPrice <= ParseFloat(q.priceMax.value).value))
  {
    var r := Inventory(units, projects, q);
    var selected := SelectedUnits(units, projects, q);
    SelectedUnitsFilter(units, projects, q);
    FilterMembership(units, SelectedBy(projects, q), u);
    if Given(q.project) {
      var matching := Filter(projects, MatchesName(q.project.value));
      if BelongsToSome(u, matching) {
        var i :| 0 <= i < |matching| && matching[i].id == u.projectId;
        FilterMembership(projects, MatchesName(q.project.value), matching[i]);
      }
      if exists p :: p in projects && p.id == u.projectId && Contains(ToLower(p.name), ToLower(q.project.value)) {
        var p :| p in projects && p.id == u.projectId && Contains(ToLower(p.name), ToLower(q.project.value));
        FilterMembership(projects, MatchesName(q.project.value), p);
        var i :| 0 <= i < |matching| && matching[i] == p;
      }
    }
    if u in selected {
      var k :| 0 <= k < |selected| && selected[k] == u;
      assert r.inventory[k].unit == u;
    }
  }

  /** The inventory lists the selected units in the order of the units array: the k-th entry
      is the unit at position idx[k], with idx increasing. */
  lemma InventoryOrder(units: seq<Unit>, projects: seq<Project>, q: InventoryQuery)
    ensures var inv := Inventory(units, projects, q).inventory;
      var idx := KeptIndices(units, SelectedBy(projects, q));
      && |idx| == |inv|
      && (forall k :: 0 <= k < |inv| ==> idx[k] < |units| && units[idx[k]] == inv[k].unit)
      && (forall k, l :: 0 <= k < l < |idx| ==> idx[k] < idx[l])
  {
    var inv := Inventory(units, projects, q).inventory;
    SelectedUnitsFilter(units, projects, q);
    KeptIndicesIncreasing(units, SelectedBy(projects, q));
    forall k | 0 <= k < |inv|
      ensures KeptIndices(units, SelectedBy(projects, q))[k] < |units|
      ensures units[KeptIndices(units, SelectedBy(projects, q))[k]] == inv[k].unit
    {
      KeptIndicesElements(units, SelectedBy(projects, q), k);
    }
  }

  /** Each entry carries the name, location and handover date of the first project with the
      unit's project id, or 'Unknown Project' with null location and handover date when there is
      none; total is the number of entries. */
  lemma InventoryJoin(units: seq<Unit>, projects: seq<Project>, q: InventoryQuery)
    ensures var r := Inventory(units, projects, q);
      && r.total == |r.inventory|
      && forall k :: 0 <= k < |r.inventory| ==>
        var e := r.inventory[k];
        && ((forall i :: 0 <= i < |projects| ==> projects[i].id != e.unit.projectId) ==>
              e.projectName == "Unknown Project" && e.projectLocation.None? && e.handoverDate.None?)
        && forall i ::
             (0 <= i < |projects| && projects[i].id == e.unit.projectId
              && (forall j :: 0 <= j < i ==> projects[j].id != e.unit.projectId)) ==>
             (e.projectName == projects[i].name && e.projectLocation == Some(projects[i].location)
              && e.handoverDate == projects[i].handoverDate)
  {
  }

  /** The location and category parameters change nothing: location is read from the query
      but never used, and category is never read. */
  lemma QueryIgnoresCategoryAndLocation(units: seq<Unit>, projects: seq<Project>, q: InventoryQuery,
                                        category: Option<string>, location: Option<string>)
    ensures Inventory(units, projects, q.(category := category, location := location)) == Inventory(units, projects, q)
  {
  }

  /** A price bound that parseFloat cannot read empties the inventory. */
  lemma UnreadableBoundEmpties(units: seq<Unit>, projects: seq<Project>, q: InventoryQuery)
    requires (Given(q.priceMin) && ParseFloat(q.priceMin.value).None?) || (Given(q.priceMax) && ParseFloat(q.priceMax.value).None?)
    ensures Inventory(units, projects, q).inventory == []
  {
    SelectedUnitsFilter(units, projects, q);
    FilterNone(units, SelectedBy(projects, q));
  }

  datatype AgentStats = AgentStats(totalProjects: nat, availableUnits: nat, myLeads: nat, activeBookings: nat, notifications: nat)

  /** GET /dashboard/stats of the agent. */
  function DashboardStats(units: seq<Unit>, projects: seq<Project>): (s: AgentStats)
    ensures s.totalProjects == |projects| && s.availableUnits <= |units|
    ensures s.availableUnits == |set i | 0 <= i < |units| && units[i].status == "AVAILABLE"|
    ensures s.myLeads == 0 && s.activeBookings == 0 && s.notifications == 0
  {
    FilterCount(units, IsAvailable);
    assert PositionsWhere(units, IsAvailable) == set i | 0 <= i < |units| && units[i].status == "AVAILABLE";
    AgentStats(|projects|, |Filter(units, IsAvailable)|, 0, 0, 0)
  }

  /** With no filter given, available_units is the total of the /inventory response. */
  lemma StatsMatchInventory(units: seq<Unit>, projects: seq<Project>, q: InventoryQuery)
    requires !Given(q.project) && !Given(q.priceMin) && !Given(q.priceMax)
    ensures DashboardStats(units, projects).availableUnits == Inventory(units, projects, q).total
  {
  }
}
