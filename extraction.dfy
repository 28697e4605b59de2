/** extractData: one entry per sheet with at least two rows, holding its header row, its
    mapped data rows and the project info the detected structure gives it. */
module Extraction {
  import opened Wrappers
  import opened Seqs
  import opened Columns
  import opened Rows
  import opened SheetStructure

  /** A worksheet as sheet_to_json gives it with header: 1 and defval '': rows of cell text. */
  datatype Sheet = Sheet(name: string, rows: seq<seq<string>>)

  /** workbook.SheetNames. */
  function SheetNames(workbook: seq<Sheet>): (names: seq<string>)
    ensures |names| == |workbook|
    ensures forall i :: 0 <= i < |workbook| ==> names[i] == workbook[i].name
  {
    seq(|workbook|, i requires 0 <= i < |workbook| => workbook[i].name)
  }

  /** An entry of extractData. The project info is what the structure gives for the sheet:
      the found entry, or none (undefined) when a multi-project structure has no such sheet. */
  datatype SheetData = SheetData(sheetName: string, projectInfo: Option<ProjectInfo>, data: seq<MappedRow>, headers: seq<string>)

  /** Sheets with fewer than two rows are skipped. */
  predicate HasData(sheet: Sheet)
  {
    |sheet.rows| >= 2
  }

  function SheetProjectInfo(structure: FileStructure, sheetName: string): Option<ProjectInfo>
  {
    match structure
    case MultiProject(projects, _) => FindBySheetName(projects, sheetName)
    case SingleProject(info) => Some(info)
  }

  /** The _projectName of the mapped rows: the sheet name in a multi-project file, else null. */
  function SheetProjectName(structure: FileStructure, sheetName: string): Option<string>
  {
    if structure.MultiProject? then Some(sheetName) else None
  }

  /** The body of the loop of extractData for one sheet: none when the sheet is skipped. */
  function ExtractSheet(sheet: Sheet, structure: FileStructure): (r: Option<SheetData>)
    ensures r.Some? <==> HasData(sheet)
  {
    if !HasData(sheet) then None
    else
      var h := HeaderRowIndex(sheet.rows);
      var headers := sheet.rows[h];
      Some(SheetData(sheet.name, SheetProjectInfo(structure, sheet.name),
        MapColumns(headers, sheet.rows[h + 1..], SheetProjectName(structure, sheet.name)), headers))
  }

  function Extractor(structure: FileStructure): Sheet -> Option<SheetData>
  {
    sheet => ExtractSheet(sheet, structure)
  }

  /** extractData over a whole workbook, sheet by sheet. */
  function ExtractAll(workbook: seq<Sheet>, structure: FileStructure): (all: seq<SheetData>)
    ensures |all| <= |workbook|
  {
    Collect(workbook, Extractor(structure))
  }

  /** The loop of extractData. */
  method ExtractData(workbook: seq<Sheet>, structure: FileStructure) returns (allData: seq<SheetData>)
    ensures allData == ExtractAll(workbook, structure)
  {
    allData := [];
    var i := 0;
    while i < |workbook|
      invariant 0 <= i <= |workbook|
      invariant allData == ExtractAll(workbook[..i], structure)
    {
      var sheet := workbook[i];
      assert workbook[..i + 1] == workbook[..i] + [sheet];
      ExtractAllSnoc(workbook[..i], sheet, structure);
      if |sheet.rows| < 2 {
        assert !HasData(sheet);
        i := i + 1;
        continue;
      }
      var sheetData := ExtractSheetData(sheet, structure);
      assert ExtractAll(workbook[..i + 1], structure) == allData + [sheetData];
      allData := allData + [sheetData];
      i := i + 1;
    }
    assert workbook[..i] == workbook;
  }

  /** The loop body of extractData for a sheet with at least two rows. */
  method ExtractSheetData(sheet: Sheet, structure: FileStructure) returns (sheetData: SheetData)
    requires HasData(sheet)
    ensures ExtractSheet(sheet, structure) == Some(sheetData)
  {
    var headerRowIndex := FindHeaderRow(sheet.rows);
    var headers := sheet.rows[headerRowIndex];
    var dataRows := sheet.rows[headerRowIndex + 1..];
    var mappedData := MapColumns(headers, dataRows, SheetProjectName(structure, sheet.name));
    sheetData := SheetData(sheet.name, SheetProjectInfo(structure, sheet.name), mappedData, headers);
  }

  lemma ExtractAllSnoc(done: seq<Sheet>, sheet: Sheet, structure: FileStructure)
    ensures ExtractAll(done + [sheet], structure) ==
      ExtractAll(done, structure) + if HasData(sheet) then [ExtractSheet(sheet, structure).value] else []
  {
    assert (done + [sheet])[..|done|] == done;
  }

  /** extractData keeps exactly the sheets with at least two rows, in workbook order, and
      extracts each of them. */
  lemma ExtractAllSheets(workbook: seq<Sheet>, structure: FileStructure)
    ensures var all := ExtractAll(workbook, structure);
      var kept := Filter(workbook, HasData);
      |all| == |kept| && forall k :: 0 <= k < |kept| ==> ExtractSheet(kept[k], structure) == Some(all[k])
  {
    CollectFilter(workbook, Extractor(structure), HasData);
  }

  /** With the structure detected from the same workbook, every extracted sheet has a project
      info, and it is the one extractProjectInfo reads from that sheet's name (the first
      sheet's name for a single-project file). */
  lemma ExtractedProjectInfo(workbook: seq<Sheet>, k: nat)
    requires DetectFileStructure(SheetNames(workbook)).Some?
    requires k < |ExtractAll(workbook, DetectFileStructure(SheetNames(workbook)).value)|
    ensures var structure := DetectFileStructure(SheetNames(workbook)).value;
      var d := ExtractAll(workbook, structure)[k];
      d.projectInfo == Some(ExtractProjectInfo(if |workbook| > 1 then d.sheetName else workbook[0].name))
  {
    var structure := DetectFileStructure(SheetNames(workbook)).value;
    var all := ExtractAll(workbook, structure);
    ExtractAllSheets(workbook, structure);
    KeptIndicesElements(workbook, HasData, k);
    var i := KeptIndices(workbook, HasData)[k];
    assert ExtractSheet(workbook[i], structure) == Some(all[k]);
    if |workbook| > 1 {
      FindDetectedProject(SheetNames(workbook), i);
    }
  }
}
