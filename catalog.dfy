/** The project and unit records the agent and developer routes read from their in-memory
    arrays. */
module Catalog {
  import opened Wrappers
  import opened Seqs

  /** A project record: its id, its owner, its name, location and handover date. */
  datatype Project = Project(id: int, developerId: int, name: string, location: string, handoverDate: Option<string>)

  /** A unit record: its id, the id of its project, its number, status and current price. */
  datatype Unit = Unit(id: int, projectId: int, unitNumber: string, status: string, currentPrice: real)

  const Available := "AVAILABLE"

  predicate IsAvailable(u: Unit)
  {
    u.status == Available
  }

  function InProject(projectId: int): Unit -> bool
  {
    (u: Unit) => u.projectId == projectId
  }

  function AvailableInProject(projectId: int): Unit -> bool
  {
    (u: Unit) => u.projectId == projectId && IsAvailable(u)
  }

  /** units.filter(u => u.project_id === projectId): exactly the units of that project, in
      order: the k-th result is the unit at the k-th of the increasing positions idx, and every
      position holding a unit of the project is among them. */
  function UnitsOf(units: seq<Unit>, projectId: int): (r: seq<Unit>)
    ensures forall u :: u in r <==> u in units && u.projectId == projectId
    ensures var idx := KeptIndices(units, InProject(projectId));
      && |r| == |idx|
      && (forall k :: 0 <= k < |r| ==> idx[k] < |units| && r[k] == units[idx[k]])
      && (forall k, l :: 0 <= k < l < |idx| ==> idx[k] < idx[l])
      && (forall i :: 0 <= i < |units| && units[i].projectId == projectId ==> i in idx)
  {
    FilterMembershipAll(units, InProject(projectId));
    FilterPositions(units, InProject(projectId));
    Filter(units, InProject(projectId))
  }
}
