/** mapColumns: turning the data rows of a sheet into field-keyed rows. */
module Rows {
  import opened Wrappers
  import opened JsText
  import opened Seqs
  import opened Columns
  import opened Cells

  /** A mapped row: its _rowIndex, its _projectName and the fields that were set. A field that
      is not a key of `fields` is undefined. */
  datatype MappedRow = MappedRow(rowIndex: nat, projectName: Option<string>, fields: map<Field, JsValue>)

  function Get(row: MappedRow, f: Field): JsValue
  {
    if f in row.fields then row.fields[f] else Undefined
  }

  /** One data row: a field is set, to its cleaned cell, only when its column index is not -1
      and the row has a cell at that index. */
  function MapRow(mapping: map<Field, int>, cells: seq<string>, rowIndex: nat, projectName: Option<string>): MappedRow
  {
    MappedRow(rowIndex, projectName,
      map f | f in mapping && mapping[f] != -1 && 0 <= mapping[f] < |cells| :: CleanValue(cells[mapping[f]], f))
  }

  /** The filter of mapColumns: a truthy unit_number. */
  predicate HasUnitNumber(row: MappedRow)
  {
    Truthy(Get(row, UnitNumber))
  }

  /** Every data row mapped, with _rowIndex = its position in dataRows plus 2 and the
      _projectName it is given. */
  function MapAll(mapping: map<Field, int>, dataRows: seq<seq<string>>, projectName: Option<string>): (all: seq<MappedRow>)
    ensures |all| == |dataRows|
    ensures forall i :: 0 <= i < |dataRows| ==> all[i].rowIndex == i + 2 && all[i].projectName == projectName
  {
    seq(|dataRows|, i requires 0 <= i < |dataRows| => MapRow(mapping, dataRows[i], i + 2, projectName))
  }

  /** mapColumns once the column mapping is built: map every data row, keep those with a
      truthy unit_number. */
  function MapWith(mapping: map<Field, int>, dataRows: seq<seq<string>>, projectName: Option<string>): seq<MappedRow>
  {
    Filter(MapAll(mapping, dataRows, projectName), HasUnitNumber)
  }

  /** mapColumns: at most one row per data row, in data-row order, each carrying the
      _projectName it was given and a truthy unit_number. */
  function MapColumns(headers: seq<string>, dataRows: seq<seq<string>>, projectName: Option<string>): (r: seq<MappedRow>)
    ensures |r| <= |dataRows|
    ensures forall k :: 0 <= k < |r| ==>
      2 <= r[k].rowIndex < |dataRows| + 2 && r[k].projectName == projectName && HasUnitNumber(r[k])
    ensures forall k, l :: 0 <= k < l < |r| ==> r[k].rowIndex < r[l].rowIndex
  {
    MapColumnsRows(CreateColumnMapping(headers), dataRows, projectName);
    MapColumnsOrder(CreateColumnMapping(headers), dataRows, projectName);
    MapWith(CreateColumnMapping(headers), dataRows, projectName)
  }

  /** A mapped field is the cleaned cell under its column, or undefined when the column is -1
      or lies beyond the end of the row. */
  lemma GetMapRow(mapping: map<Field, int>, cells: seq<string>, rowIndex: nat, projectName: Option<string>, f: Field)
    ensures Get(MapRow(mapping, cells, rowIndex, projectName), f) ==
      if f in mapping && mapping[f] != -1 && 0 <= mapping[f] < |cells| then CleanValue(cells[mapping[f]], f) else Undefined
  {
  }

  /** A row survives the filter exactly when the header has a unit-number column, the row
      reaches it, and that cell is not blank. */
  lemma HasUnitNumberIff(headers: seq<string>, cells: seq<string>, rowIndex: nat, projectName: Option<string>)
    ensures var k := ColumnIndex(headers, UnitNumber);
      HasUnitNumber(MapRow(CreateColumnMapping(headers), cells, rowIndex, projectName)) <==>
        k != -1 && k < |cells| && Trim(cells[k]) != ""
  {
    var m := CreateColumnMapping(headers);
    assert UnitNumber in m && m[UnitNumber] == ColumnIndex(headers, UnitNumber);
    HasUnitNumberIffWith(m, cells, rowIndex, projectName);
  }

  lemma HasUnitNumberIffWith(m: map<Field, int>, cells: seq<string>, rowIndex: nat, projectName: Option<string>)
    requires UnitNumber in m
    ensures var k := m[UnitNumber];
      HasUnitNumber(MapRow(m, cells, rowIndex, projectName)) <==> k != -1 && 0 <= k < |cells| && Trim(cells[k]) != ""
  {
    GetMapRow(m, cells, rowIndex, projectName, UnitNumber);
    var k := m[UnitNumber];
    if k != -1 && 0 <= k < |cells| && cells[k] == "" {
      assert Trim(cells[k]) == "";
    }
  }

  /** The k-th row mapColumns returns is the mapping of data row idx[k], where idx lists the
      kept positions. */
  lemma {:induction false} MapWithAt(m: map<Field, int>, dataRows: seq<seq<string>>, projectName: Option<string>, k: nat)
    requires k < |MapWith(m, dataRows, projectName)|
    ensures var out := MapWith(m, dataRows, projectName);
      var i := KeptIndices(MapAll(m, dataRows, projectName), HasUnitNumber)[k];
      && i < |dataRows|
      && out[k] == MapRow(m, dataRows[i], i + 2, projectName)
      && HasUnitNumber(out[k])
  {
    KeptIndicesElements(MapAll(m, dataRows, projectName), HasUnitNumber, k);
  }

  /** Every row mapColumns returns is the mapping of the data row at _rowIndex - 2, and has a
      truthy unit_number. */
  lemma MapColumnsRows(m: map<Field, int>, dataRows: seq<seq<string>>, projectName: Option<string>)
    ensures var out := MapWith(m, dataRows, projectName);
      forall k :: 0 <= k < |out| ==>
        && 2 <= out[k].rowIndex < |dataRows| + 2
        && out[k] == MapRow(m, dataRows[out[k].rowIndex - 2], out[k].rowIndex, projectName)
        && HasUnitNumber(out[k])
  {
    var out := MapWith(m, dataRows, projectName);
    forall k | 0 <= k < |out|
      ensures 2 <= out[k].rowIndex < |dataRows| + 2
      ensures out[k] == MapRow(m, dataRows[out[k].rowIndex - 2], out[k].rowIndex, projectName)
      ensures HasUnitNumber(out[k])
    {
      MapWithAt(m, dataRows, projectName, k);
    }
  }

  /** mapColumns keeps the input order: _rowIndex strictly increases along its result. */
  lemma MapColumnsOrder(m: map<Field, int>, dataRows: seq<seq<string>>, projectName: Option<string>)
    ensures var out := MapWith(m, dataRows, projectName);
      forall k, l :: 0 <= k < l < |out| ==> out[k].rowIndex < out[l].rowIndex
  {
    var out := MapWith(m, dataRows, projectName);
    var idx := KeptIndices(MapAll(m, dataRows, projectName), HasUnitNumber);
    KeptIndicesIncreasing(MapAll(m, dataRows, projectName), HasUnitNumber);
    forall k | 0 <= k < |out|
      ensures out[k].rowIndex == idx[k] + 2
    {
      MapWithAt(m, dataRows, projectName, k);
    }
  }

  /** mapColumns drops no data row whose unit_number is truthy. */
  lemma MapColumnsComplete(m: map<Field, int>, dataRows: seq<seq<string>>, projectName: Option<string>, i: nat)
    requires i < |dataRows| && HasUnitNumber(MapRow(m, dataRows[i], i + 2, projectName))
    ensures exists k :: 0 <= k < |MapWith(m, dataRows, projectName)| && MapWith(m, dataRows, projectName)[k].rowIndex == i + 2
  {
    var all := MapAll(m, dataRows, projectName);
    var kept := MapWith(m, dataRows, projectName);
    assert all[i].rowIndex == i + 2;
    FilterKeeps(all, HasUnitNumber, i);
    var k :| 0 <= k < |kept| && kept[k] == all[i];
    assert kept[k].rowIndex == i + 2;
  }

  /** The kinds of value each field of a mapped row can carry. */
  predicate WellTyped(row: MappedRow)
  {
    forall f :: f in row.fields ==>
      && row.fields[f] != Undefined
      && (IsNumericField(f) ==> row.fields[f].Null? || row.fields[f].Num?)
      && (f == Floor ==> row.fields[f].Null? || row.fields[f].Num?)
      && (!IsNumericField(f) && f != Floor ==> row.fields[f].Null? || row.fields[f].Str?)
  }

  lemma MapRowWellTyped(mapping: map<Field, int>, cells: seq<string>, rowIndex: nat, projectName: Option<string>)
    ensures WellTyped(MapRow(mapping, cells, rowIndex, projectName))
  {
    var r := MapRow(mapping, cells, rowIndex, projectName);
    forall f | f in r.fields
      ensures r.fields[f] != Undefined
    {
      CleanValueKinds(cells[mapping[f]], f);
    }
  }

  /** Every row mapColumns returns is well typed, and its unit_number is non-empty text. */
  lemma MapColumnsWellTyped(m: map<Field, int>, dataRows: seq<seq<string>>, projectName: Option<string>)
    ensures forall k :: 0 <= k < |MapWith(m, dataRows, projectName)| ==>
      var r := MapWith(m, dataRows, projectName)[k];
      WellTyped(r) && Get(r, UnitNumber).Str? && Get(r, UnitNumber).s != ""
  {
    var out := MapWith(m, dataRows, projectName);
    MapColumnsRows(m, dataRows, projectName);
    forall k | 0 <= k < |out|
      ensures WellTyped(out[k]) && Get(out[k], UnitNumber).Str? && Get(out[k], UnitNumber).s != ""
    {
      MapRowWellTyped(m, dataRows[out[k].rowIndex - 2], out[k].rowIndex, projectName);
    }
  }
}
