/** processData and simulateDatabase: assembling projects from the extracted sheets, and the
    unit_progress events of the simulated database writes. */
module Processing {
  import opened Wrappers
  import opened JsText
  import opened Columns
  import opened Cells
  import opened Rows
  import opened SheetStructure
  import opened Extraction
  import opened Validation

  /** A unit as processData builds it. */
  datatype ProcessedUnit = ProcessedUnit(
    unitNumber: JsValue, unitCode: JsValue, floor: JsValue, category: JsValue, subType: JsValue,
    area: JsValue, balconyArea: JsValue, viewDescription: JsValue, basePrice: JsValue, currentPrice: JsValue)

  datatype ProjectData = ProjectData(name: string, location: string, handoverDate: Option<string>, units: seq<ProcessedUnit>)

  datatype Summary = Summary(projectsProcessed: nat, unitsProcessed: nat, timestamp: string)

  datatype ProcessedData = ProcessedData(developerId: int, projects: seq<ProjectData>, summary: Summary)

  /** Every project is placed at the same location. */
  const DefaultLocation := "Business Bay, Dubai"

  /** A value interpolated into a template literal: text as it is, null and undefined by
      name, and a whole number in decimal. */
  function TemplateText(v: JsValue): (r: string)
    ensures v.Str? ==> r == v.s
    ensures v == Null ==> r == "null"
    ensures v == Undefined ==> r == "undefined"
    ensures v.Num? && v.x >= 0.0 && v.x == v.x.Floor as real ==> r == NatToString(v.x.Floor)
  {
    match v
    case Undefined => "undefined"
    case Null => "null"
    case Str(s) => s
    case Num(x) => IntToString(x.Floor)
  }

  /** The unit_code fallback `${name}-${unit_number}`. */
  function DefaultUnitCode(projectName: string, unitNumber: JsValue): string
  {
    projectName + "-" + TemplateText(unitNumber)
  }

  /** One unit of processData: the mapped fields carried over under their new names, the
      price as both base and current price, and the unit's own truthy unit_code or else
      `<projectName>-<unit_number>`. */
  function ToUnit(unit: MappedRow, projectName: string): (p: ProcessedUnit)
    ensures p.unitNumber == Get(unit, UnitNumber) && p.floor == Get(unit, Floor)
    ensures p.category == Get(unit, Category) && p.subType == Get(unit, SubType)
    ensures p.area == Get(unit, Area) && p.balconyArea == Get(unit, Balcony) && p.viewDescription == Get(unit, View)
    ensures p.basePrice == p.currentPrice == Get(unit, Price)
    ensures Truthy(Get(unit, UnitCode)) ==> p.unitCode == Get(unit, UnitCode)
    ensures !Truthy(Get(unit, UnitCode)) ==> p.unitCode == Str(projectName + "-" + TemplateText(Get(unit, UnitNumber)))
  {
    var code := Get(unit, UnitCode);
    ProcessedUnit(
      Get(unit, UnitNumber),
      if Truthy(code) then code else Str(DefaultUnitCode(projectName, Get(unit, UnitNumber))),
      Get(unit, Floor), Get(unit, Category), Get(unit, SubType), Get(unit, Area), Get(unit, Balcony),
      Get(unit, View), Get(unit, Price), Get(unit, Price))
  }

  /** The project of one sheet: the name and handover date of its project info, the fixed
      location, and one unit per mapped row, in order, coded under the project's name. */
  function ToProject(info: ProjectInfo, data: seq<MappedRow>): (p: ProjectData)
    ensures p.name == info.name && p.location == "Business Bay, Dubai" && p.handoverDate == info.handoverDate
    ensures |p.units| == |data|
    ensures forall i :: 0 <= i < |data| ==>
      && p.units[i].unitNumber == Get(data[i], UnitNumber)
      && p.units[i].currentPrice == Get(data[i], Price)
      && (!Truthy(Get(data[i], UnitCode)) ==>
            p.units[i].unitCode == Str(info.name + "-" + TemplateText(Get(data[i], UnitNumber))))
  {
    ProjectData(info.name, DefaultLocation, info.handoverDate,
      seq(|data|, i requires 0 <= i < |data| => ToUnit(data[i], info.name)))
  }

  /** Unit i of project k is unit i of entry k, with its price as both base and current
      price, and with `<project name>-<unit_number>` as its code when it has none of its own. */
  lemma ProjectsOfUnits(extractedData: seq<SheetData>, k: nat, i: nat)
    requires HasProjectInfos(extractedData)
    requires k < |extractedData| && i < |extractedData[k].data|
    ensures var info := extractedData[k].projectInfo.value;
      var unit := extractedData[k].data[i];
      var p := ProjectsOf(extractedData)[k].units[i];
      && p.unitNumber == Get(unit, UnitNumber)
      && p.basePrice == p.currentPrice == Get(unit, Price)
      && p.area == Get(unit, Area)
      && (Truthy(Get(unit, UnitCode)) ==> p.unitCode == Get(unit, UnitCode))
      && (!Truthy(Get(unit, UnitCode)) ==> p.unitCode == Str(info.name + "-" + TemplateText(Get(unit, UnitNumber))))
  {
  }

  /** Every entry has a project info; processData reads its name. */
  predicate HasProjectInfos(extractedData: seq<SheetData>)
  {
    forall k :: 0 <= k < |extractedData| ==> extractedData[k].projectInfo.Some?
  }

  /** The projects of processData, one per entry, in order: project k has the name and
      handover date of entry k's project info, the fixed location, and one unit per row of
      entry k. */
  function ProjectsOf(extractedData: seq<SheetData>): (ps: seq<ProjectData>)
    requires HasProjectInfos(extractedData)
    ensures |ps| == |extractedData|
    ensures forall k :: 0 <= k < |extractedData| ==>
      && ps[k].name == extractedData[k].projectInfo.value.name
      && ps[k].location == "Business Bay, Dubai"
      && ps[k].handoverDate == extractedData[k].projectInfo.value.handoverDate
      && |ps[k].units| == |extractedData[k].data|
  {
    seq(|extractedData|, k requires 0 <= k < |extractedData| =>
      ToProject(extractedData[k].projectInfo.value, extractedData[k].data))
  }

  /** Data extracted with the detected structure always has its project info: every sheet name
      is among the detected projects, and a single-sheet workbook has its one project. */
  lemma ExtractedHasProjectInfos(workbook: seq<Sheet>)
    requires DetectFileStructure(SheetNames(workbook)).Some?
    ensures HasProjectInfos(ExtractAll(workbook, DetectFileStructure(SheetNames(workbook)).value))
  {
    var all := ExtractAll(workbook, DetectFileStructure(SheetNames(workbook)).value);
    forall k | 0 <= k < |all|
      ensures all[k].projectInfo.Some?
    {
      ExtractedProjectInfo(workbook, k);
    }
  }

  /** With the structure detected from the same workbook, project k is named and dated from
      the name of the sheet it came from (from the first sheet's name for a single-sheet
      workbook), and is located at the fixed location. */
  lemma ProjectsOfWorkbook(workbook: seq<Sheet>, k: nat)
    requires DetectFileStructure(SheetNames(workbook)).Some?
    requires k < |ExtractAll(workbook, DetectFileStructure(SheetNames(workbook)).value)|
    ensures var extracted := ExtractAll(workbook, DetectFileStructure(SheetNames(workbook)).value);
      HasProjectInfos(extracted) &&
      var name := if |workbook| > 1 then extracted[k].sheetName else workbook[0].name;
      var p := ProjectsOf(extracted)[k];
      && p.name == ProjectName(name)
      && p.handoverDate == HandoverDate(name)
      && p.location == "Business Bay, Dubai"
      && |p.units| == |extracted[k].data|
  {
    ExtractedHasProjectInfos(workbook);
    ExtractedProjectInfo(workbook, k);
  }

  /** The running total of units, sheet after sheet. */
  function TotalUnits(extractedData: seq<SheetData>): nat
  {
    if extractedData == [] then 0
    else TotalUnits(extractedData[..|extractedData| - 1]) + |extractedData[|extractedData| - 1].data|
  }

  /** The loop of processData; the clock reading is the parameter timestamp. */
  method ProcessData(extractedData: seq<SheetData>, developerId: int, timestamp: string) returns (processed: ProcessedData)
    requires HasProjectInfos(extractedData)
    ensures processed == ProcessedData(developerId, ProjectsOf(extractedData),
      Summary(|extractedData|, TotalUnits(extractedData), timestamp))
  {
    var projects: seq<ProjectData> := [];
    var totalUnits := 0;
    for i := 0 to |extractedData|
      invariant projects == ProjectsOf(extractedData[..i])
      invariant totalUnits == TotalUnits(extractedData[..i])
    {
      var sheetData := extractedData[i];
      var projectData := ToProject(sheetData.projectInfo.value, sheetData.data);
      assert extractedData[..i + 1][..i] == extractedData[..i];
      totalUnits := totalUnits + |projectData.units|;
      projects := projects + [projectData];
    }
    assert extractedData[..|extractedData|] == extractedData;
    processed := ProcessedData(developerId, projects, Summary(|projects|, totalUnits, timestamp));
  }

  /** unitsProcessed counts every unit of every sheet. */
  lemma {:induction false} TotalUnitsCountsAll(extractedData: seq<SheetData>)
    ensures TotalUnits(extractedData) == |AllUnits(extractedData)|
  {
    if extractedData != [] {
      TotalUnitsCountsAll(extractedData[..|extractedData| - 1]);
    }
  }

  /** A processed unit keeps the unit's number and its parsed price as both base and current
      price, and has the project name and unit number as its code when it has none of its own. */
  lemma ToUnitFields(unit: MappedRow, projectName: string)
    ensures var p := ToUnit(unit, projectName);
      && p.unitNumber == Get(unit, UnitNumber)
      && p.basePrice == p.currentPrice == Get(unit, Price)
      && (Truthy(Get(unit, UnitCode)) ==> p.unitCode == Get(unit, UnitCode))
      && (!Truthy(Get(unit, UnitCode)) && Get(unit, UnitNumber).Str? ==>
            p.unitCode == Str(projectName + "-" + Get(unit, UnitNumber).s))
  {
  }

  /** Once validation has passed, every processed unit has a positive numeric area and a
      positive numeric current price, as long as it came out of mapColumns. */
  lemma ValidatedUnitsPositive(extractedData: seq<SheetData>, k: nat, i: nat)
    requires HasProjectInfos(extractedData)
    requires CriticalErrors(AllUnits(extractedData)) == []
    requires k < |extractedData| && i < |extractedData[k].data|
    requires WellTyped(extractedData[k].data[i])
    ensures var u := ProjectsOf(extractedData)[k].units[i];
      u.area.Num? && u.area.x > 0.0 && u.currentPrice.Num? && u.currentPrice.x > 0.0
  {
    var unit := extractedData[k].data[i];
    UnitInAllUnits(extractedData, k, i);
    NoCriticalErrorsIff(AllUnits(extractedData));
    assert PassesChecks(unit);
    assert Area in unit.fields && Price in unit.fields;
  }

  lemma {:induction false} UnitInAllUnits(extractedData: seq<SheetData>, k: nat, i: nat)
    requires k < |extractedData| && i < |extractedData[k].data|
    ensures extractedData[k].data[i] in AllUnits(extractedData)
  {
    var init := extractedData[..|extractedData| - 1];
    if k < |extractedData| - 1 {
      UnitInAllUnits(init, k, i);
    } else {
      assert AllUnits(extractedData) == AllUnits(init) + extractedData[k].data;
      assert AllUnits(extractedData)[|AllUnits(init)| + i] == extractedData[k].data[i];
    }
  }

  /** The events the service emits on the socket. */
  datatype Event =
    | UploadProgress(status: string, message: string, step: nat, total: nat)
    | UnitProgress(processed: nat, total: nat, currentProject: string)
    | UploadComplete(summary: Summary)
    | UploadError(error: string)

  /** The project name of every unit, in the order simulateDatabase visits them. */
  function UnitOwners(projects: seq<ProjectData>): seq<string>
  {
    if projects == [] then []
    else
      var last := projects[|projects| - 1];
      UnitOwners(projects[..|projects| - 1]) + seq(|last.units|, i requires 0 <= i < |last.units| => last.name)
  }

  /** The unit_progress events after the units whose owners are listed: one each time the
      running count reaches a multiple of 5. */
  function ProgressTrace(owners: seq<string>, total: nat): seq<Event>
  {
    if owners == [] then []
    else
      ProgressTrace(owners[..|owners| - 1], total) +
        if |owners| % 5 == 0 then [UnitProgress(|owners|, total, owners[|owners| - 1])] else []
  }

  lemma ProgressTraceSnoc(owners: seq<string>, name: string, total: nat)
    ensures ProgressTrace(owners + [name], total) == ProgressTrace(owners, total) +
      if (|owners| + 1) % 5 == 0 then [UnitProgress(|owners| + 1, total, name)] else []
  {
    assert (owners + [name])[..|owners|] == owners;
  }

  /** The nested loops of simulateDatabase, without the write delays; an absent socket emits
      nothing. */
  method SimulateDatabase(processed: ProcessedData, connected: bool) returns (events: seq<Event>)
    ensures events == if connected then ProgressTrace(UnitOwners(processed.projects), processed.summary.unitsProcessed) else []
  {
    events := [];
    var processedUnits := 0;
    var totalUnits := processed.summary.unitsProcessed;
    ghost var owners: seq<string> := [];
    var projects := processed.projects;
    for j := 0 to |projects|
      invariant owners == UnitOwners(projects[..j])
      invariant processedUnits == |owners|
      invariant events == if connected then ProgressTrace(owners, totalUnits) else []
    {
      var project := projects[j];
      ghost var before := owners;
      for k := 0 to |project.units|
        invariant owners == before + seq(k, i requires 0 <= i < k => project.name)
        invariant processedUnits == |owners|
        invariant events == if connected then ProgressTrace(owners, totalUnits) else []
      {
        ProgressTraceSnoc(owners, project.name, totalUnits);
        owners := owners + [project.name];
        processedUnits := processedUnits + 1;
        if processedUnits % 5 == 0 && connected {
          events := events + [UnitProgress(processedUnits, totalUnits, project.name)];
        }
      }
      assert projects[..j + 1][..j] == projects[..j];
    }
    assert projects[..|projects|] == projects;
  }

  /** The trace in closed form: floor(n/5) events, the k-th reporting 5(k+1) units processed,
      during the project of the 5(k+1)-th unit. */
  lemma {:induction false} ProgressTraceClosedForm(owners: seq<string>, total: nat)
    ensures |ProgressTrace(owners, total)| == |owners| / 5
    ensures forall k :: 0 <= k < |owners| / 5 ==>
      ProgressTrace(owners, total)[k] == UnitProgress(5 * (k + 1), total, owners[5 * k + 4])
  {
    if owners != [] {
      var init := owners[..|owners| - 1];
      ProgressTraceClosedForm(init, total);
      forall k | 0 <= k < |init| / 5
        ensures init[5 * k + 4] == owners[5 * k + 4]
      {
      }
    }
  }

  /** Every unit is visited once: the owners list has one entry per processed unit. */
  lemma {:induction false} UnitOwnersCount(extractedData: seq<SheetData>)
    requires HasProjectInfos(extractedData)
    ensures |UnitOwners(ProjectsOf(extractedData))| == TotalUnits(extractedData)
  {
    if extractedData != [] {
      var init := extractedData[..|extractedData| - 1];
      UnitOwnersCount(init);
      assert ProjectsOf(extractedData)[..|extractedData| - 1] == ProjectsOf(init);
    }
  }
}
