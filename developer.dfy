/** The developer routes: the owned-project list, the project detail lookup and the dashboard
    totals. The requesting user's id is a parameter. */
module Developer {
  import opened Wrappers
  import opened JsNumber
  import opened Seqs
  import opened Catalog

  function OwnedBy(userId: int): Project -> bool
  {
    (p: Project) => p.developerId == userId
  }

  /** projects.filter(p => p.developer_id === req.user.id). */
  function DeveloperProjects(projects: seq<Project>, userId: int): seq<Project>
  {
    Filter(projects, OwnedBy(userId))
  }

  /** A project of the /projects list, with its unit_count. */
  datatype ProjectSummary = ProjectSummary(project: Project, unitCount: nat)

  /** GET /projects: the developer's projects in order, each with unit_count the number of
      positions of the units array holding a unit of that project. */
  function ListProjects(projects: seq<Project>, units: seq<Unit>, userId: int): (r: seq<ProjectSummary>)
    ensures |r| == |DeveloperProjects(projects, userId)|
    ensures forall k :: 0 <= k < |r| ==>
      && r[k].project == DeveloperProjects(projects, userId)[k]
      && r[k].unitCount == |set j | 0 <= j < |units| && units[j].projectId == r[k].project.id|
  {
    var owned := DeveloperProjects(projects, userId);
    forall k | 0 <= k < |owned|
      ensures |UnitsOf(units, owned[k].id)| == |set j | 0 <= j < |units| && units[j].projectId == owned[k].id|
    {
      FilterCount(units, InProject(owned[k].id));
      assert PositionsWhere(units, InProject(owned[k].id)) == set j | 0 <= j < |units| && units[j].projectId == owned[k].id;
    }
    seq(|owned|, k requires 0 <= k < |owned| => ProjectSummary(owned[k], |UnitsOf(units, owned[k].id)|))
  }

  /** /projects lists exactly the requesting developer's projects, in the order of the array. */
  lemma ListProjectsOwned(projects: seq<Project>, units: seq<Unit>, userId: int, p: Project)
    ensures (exists k :: 0 <= k < |ListProjects(projects, units, userId)| && ListProjects(projects, units, userId)[k].project == p)
      <==> p in projects && p.developerId == userId
  {
    var owned := DeveloperProjects(projects, userId);
    FilterMembership(projects, OwnedBy(userId), p);
    if p in owned {
      var k :| 0 <= k < |owned| && owned[k] == p;
      assert ListProjects(projects, units, userId)[k].project == p;
    }
  }

  /** The answer of GET /projects/:id. */
  datatype DetailResponse = NotFound(status: nat, message: string) | Found(project: Project, units: seq<Unit>)

  const ProjectNotFound := "Project not found"

  /** The first project with the id that the user owns. */
  function FindOwned(projects: seq<Project>, projectId: int, userId: int): (r: Option<Project>)
    ensures r.Some? ==> exists i :: (0 <= i < |projects| && projects[i] == r.value && r.value.id == projectId
      && r.value.developerId == userId
      && forall j :: 0 <= j < i ==> !(projects[j].id == projectId && projects[j].developerId == userId))
    ensures r.None? <==> forall i :: 0 <= i < |projects| ==> !(projects[i].id == projectId && projects[i].developerId == userId)
  {
    if projects == [] then None
    else if projects[0].id == projectId && projects[0].developerId == userId then Some(projects[0])
    else
      var r := FindOwned(projects[1..], projectId, userId);
      assert r.Some? ==> projects[1..][0..] == projects[1..];
      r
  }

  /** GET /projects/:id, with the path parameter read by parseInt; NaN matches no project. */
  function ProjectDetail(projects: seq<Project>, units: seq<Unit>, userId: int, idParam: string): (r: DetailResponse)
    ensures r.NotFound? ==> r.status == 404 && r.message == "Project not found"
    ensures r.Found? ==>
      && ParseInt(idParam) == Some(r.project.id)
      && r.project in projects && r.project.developerId == userId
      && forall u :: u in r.units <==> u in units && u.projectId == r.project.id
  {
    match ParseInt(idParam)
    case None => NotFound(404, ProjectNotFound)
    case Some(projectId) =>
      match FindOwned(projects, projectId, userId)
      case None => NotFound(404, ProjectNotFound)
      case Some(project) => Found(project, UnitsOf(units, projectId))
  }

  /** The lookup fails with 404 'Project not found' exactly when the id cannot be read or no
      project with it belongs to the user; otherwise it returns the first such project with
      exactly the units whose project id is the requested id. */
  lemma ProjectDetailCases(projects: seq<Project>, units: seq<Unit>, userId: int, idParam: string)
    ensures var r := ProjectDetail(projects, units, userId, idParam);
      && (r.NotFound? <==> (ParseInt(idParam).None? ||
            forall i :: 0 <= i < |projects| ==> !(projects[i].id == ParseInt(idParam).value && projects[i].developerId == userId)))
      && (r.NotFound? ==> r.status == 404 && r.message == "Project not found")
      && (r.Found? ==>
            && r.project in projects && r.project.id == ParseInt(idParam).value && r.project.developerId == userId
            && forall u :: u in r.units <==> u in units && u.projectId == r.project.id)
  {
  }

  datatype DeveloperStats = DeveloperStats(totalProjects: nat, totalUnits: nat, availableUnits: nat, soldUnits: int, recentUploads: nat)

  /** The reduce over the developer's projects of the number of units of each. */
  function TotalUnits(owned: seq<Project>, units: seq<Unit>): nat
  {
    if owned == [] then 0
    else TotalUnits(owned[..|owned| - 1], units) + |UnitsOf(units, owned[|owned| - 1].id)|
  }

  /** The same reduce, counting only AVAILABLE units. */
  function AvailableUnits(owned: seq<Project>, units: seq<Unit>): nat
  {
    if owned == [] then 0
    else AvailableUnits(owned[..|owned| - 1], units) + |Filter(units, AvailableInProject(owned[|owned| - 1].id))|
  }

  /** GET /dashboard/stats of the developer. */
  function DashboardStats(projects: seq<Project>, units: seq<Unit>, userId: int): (s: DeveloperStats)
    ensures s.totalProjects == |DeveloperProjects(projects, userId)|
    ensures s.availableUnits <= s.totalUnits
    ensures s.soldUnits == s.totalUnits - s.availableUnits && s.soldUnits >= 0
    ensures s.recentUploads == 0
  {
    var owned := DeveloperProjects(projects, userId);
    AvailableAtMostTotal(owned, units);
    var total := TotalUnits(owned, units);
    var available := AvailableUnits(owned, units);
    DeveloperStats(|owned|, total, available, total - available, 0)
  }

  /** Available units never outnumber units, so sold_units is never negative. */
  lemma {:induction false} AvailableAtMostTotal(owned: seq<Project>, units: seq<Unit>)
    ensures AvailableUnits(owned, units) <= TotalUnits(owned, units)
  {
    if owned != [] {
      var id := owned[|owned| - 1].id;
      AvailableAtMostTotal(owned[..|owned| - 1], units);
      FilterMonotone(units, AvailableInProject(id), InProject(id));
    }
  }

  /** total_units is the sum of the unit counts /projects reports. */
  function SumCounts(list: seq<ProjectSummary>): nat
  {
    if list == [] then 0 else SumCounts(list[..|list| - 1]) + list[|list| - 1].unitCount
  }

  lemma {:induction false} TotalIsSumOfCounts(projects: seq<Project>, units: seq<Unit>, userId: int)
    ensures SumCounts(ListProjects(projects, units, userId)) == TotalUnits(DeveloperProjects(projects, userId), units)
  {
    SumCountsOf(DeveloperProjects(projects, userId), ListProjects(projects, units, userId), units);
  }

  lemma {:induction false} SumCountsOf(owned: seq<Project>, list: seq<ProjectSummary>, units: seq<Unit>)
    requires |list| == |owned|
    requires forall k :: 0 <= k < |list| ==> list[k].project == owned[k] && list[k].unitCount == |UnitsOf(units, owned[k].id)|
    ensures SumCounts(list) == TotalUnits(owned, units)
  {
    if owned != [] {
      SumCountsOf(owned[..|owned| - 1], list[..|list| - 1], units);
    }
  }

  /** The developer stats: the project count, totals with available <= total, sold = total -
      available >= 0, total_units the sum of the /projects unit counts, and no recent uploads. */
  lemma DashboardStatsFacts(projects: seq<Project>, units: seq<Unit>, userId: int)
    ensures var s := DashboardStats(projects, units, userId);
      && s.totalProjects == |ListProjects(projects, units, userId)|
      && s.totalUnits == SumCounts(ListProjects(projects, units, userId))
      && s.availableUnits <= s.totalUnits
      && s.soldUnits == s.totalUnits - s.availableUnits && s.soldUnits >= 0
      && s.recentUploads == 0
  {
    AvailableAtMostTotal(DeveloperProjects(projects, userId), units);
    TotalIsSumOfCounts(projects, units, userId);
  }

  /** When project ids are distinct, total_units counts each unit of the developer's projects
      once: it is the number of units whose project is one of theirs. */
  lemma {:induction false} TotalCountsOwnedUnits(owned: seq<Project>, units: seq<Unit>)
    requires forall i, j :: 0 <= i < j < |owned| ==> owned[i].id != owned[j].id
    ensures TotalUnits(owned, units) == |Filter(units, InAny(owned))|
  {
    if owned == [] {
      FilterNone(units, InAny(owned));
    } else {
      var init := owned[..|owned| - 1];
      var last := owned[|owned| - 1];
      TotalCountsOwnedUnits(init, units);
      forall u: Unit
        ensures InAny(owned)(u) <==> InAny(init)(u) || InProject(last.id)(u)
        ensures !(InAny(init)(u) && InProject(last.id)(u))
      {
        if InAny(owned)(u) {
          var i :| 0 <= i < |owned| && owned[i].id == u.projectId;
          if i < |init| {
            assert init[i] == owned[i];
          }
        }
        if InAny(init)(u) {
          var i :| 0 <= i < |init| && init[i].id == u.projectId;
          assert owned[i] == init[i];
        }
      }
      FilterSplit(units, InAny(owned), InAny(init), InProject(last.id));
    }
  }

  function InAny(owned: seq<Project>): Unit -> bool
  {
    (u: Unit) => exists i :: 0 <= i < |owned| && owned[i].id == u.projectId
  }
}
