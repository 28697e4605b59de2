/** validateData: the critical errors that abort an upload and the price-per-area warnings. */
module Validation {
  import opened Wrappers
  import opened JsText
  import opened Seqs
  import opened Columns
  import opened Cells
  import opened Rows
  import opened SheetStructure
  import opened Extraction

  /** The three checks a unit must pass, in the order they are made. */
  datatype ErrorKind = UnitNumberRequired | ValidAreaRequired | ValidPriceRequired

  datatype CriticalError = CriticalError(kind: ErrorKind, row: nat)

  /** The text pushed onto criticalErrors. */
  function ErrorMessage(e: CriticalError): string
  {
    "Row " + NatToString(e.row) + ": " +
      match e.kind
      case UnitNumberRequired => "Unit number is required"
      case ValidAreaRequired => "Valid area is required"
      case ValidPriceRequired => "Valid price is required"
  }

  /** One text per error, in order: "Row N: ", with N the error's row in decimal, then a
      message ending in " is required". */
  function ErrorMessages(errors: seq<CriticalError>): (r: seq<string>)
    ensures |r| == |errors|
    ensures forall i :: 0 <= i < |errors| ==>
      var prefix := "Row " + NatToString(errors[i].row) + ": ";
      && |prefix| + 12 <= |r[i]| && r[i][..|prefix|] == prefix
      && r[i][|r[i]| - 12..] == " is required"
  {
    forall i | 0 <= i < |errors|
      ensures var prefix := "Row " + NatToString(errors[i].row) + ": ";
        var m := ErrorMessage(errors[i]);
        && |prefix| + 12 <= |m| && m[..|prefix|] == prefix && m[|m| - 12..] == " is required"
    {
      ErrorMessageShape(errors[i]);
    }

    seq(|errors|, i requires 0 <= i < |errors| => ErrorMessage(errors[i]))
  }

  lemma ErrorMessageShape(e: CriticalError)
    ensures var prefix := "Row " + NatToString(e.row) + ": ";
      var m := ErrorMessage(e);
      && |prefix| + 12 <= |m| && m[..|prefix|] == prefix && m[|m| - 12..] == " is required"
  {
    var prefix := "Row " + NatToString(e.row) + ": ";
    var text := match e.kind
      case UnitNumberRequired => "Unit number is required"
      case ValidAreaRequired => "Valid area is required"
      case ValidPriceRequired => "Valid price is required";
    assert ErrorMessage(e) == prefix + text;
    assert text[|text| - 12..] == " is required";
    ConcatEnds(prefix, text, 12);
  }

  /** a + b starts with a and ends with the last k elements of b. */
  lemma ConcatEnds<T>(a: seq<T>, b: seq<T>, k: nat)
    requires k <= |b|
    ensures (a + b)[..|a|] == a
    ensures (a + b)[|a + b| - k..] == b[|b| - k..]
  {
  }

  /** A warning: the row and its price per square foot. */
  datatype Warning = UnusualPricePerArea(row: nat, pricePerSqft: real)

  datatype ValidationResult = ValidationResult(errors: seq<string>, warnings: seq<Warning>, criticalErrors: seq<CriticalError>)

  /** `!v || v <= 0` on the values cleanValue gives area and price: null, undefined or a
      number (NotPositiveNumbers). Text never reaches this check, and the model does not
      compare text with 0: it counts truthy text as positive. */
  predicate NotPositive(v: JsValue)
  {
    !Truthy(v) || (v.Num? && v.x <= 0.0)
  }

  /** price / area for two truthy values: the quotient when both are numbers. Text never
      reaches this division, and the model gives none for it. */
  function Quotient(price: JsValue, area: JsValue): (r: Option<real>)
    requires Truthy(price) && Truthy(area)
  {
    if price.Num? && area.Num? then Some(price.x / area.x) else None
  }

  predicate Unusual(pricePerSqft: real)
  {
    pricePerSqft < 100.0 || pricePerSqft > 50000.0
  }

  predicate Fails(unit: MappedRow, kind: ErrorKind)
  {
    match kind
    case UnitNumberRequired => !Truthy(Get(unit, UnitNumber))
    case ValidAreaRequired => NotPositive(Get(unit, Area))
    case ValidPriceRequired => NotPositive(Get(unit, Price))
  }

  function ErrorIf(unit: MappedRow, kind: ErrorKind): seq<CriticalError>
  {
    if Fails(unit, kind) then [CriticalError(kind, unit.rowIndex)] else []
  }

  /** The critical errors of one unit, in the order they are pushed. */
  function UnitErrors(unit: MappedRow): (r: seq<CriticalError>)
    ensures |r| <= 3
  {
    ErrorIf(unit, UnitNumberRequired) + ErrorIf(unit, ValidAreaRequired) + ErrorIf(unit, ValidPriceRequired)
  }

  /** A unit's errors all carry its row, and there is one of a kind exactly when the unit
      fails that check. */
  lemma UnitErrorsSpec(unit: MappedRow)
    ensures var r := UnitErrors(unit);
      && (forall i :: 0 <= i < |r| ==> r[i].row == unit.rowIndex)
      && (forall kind :: CriticalError(kind, unit.rowIndex) in r <==> Fails(unit, kind))
  {
  }

  /** The warning of one unit, if any. */
  function UnitWarnings(unit: MappedRow): (r: seq<Warning>)
    ensures |r| <= 1
  {
    var area := Get(unit, Area);
    var price := Get(unit, Price);
    if Truthy(area) && Truthy(price) then
      match Quotient(price, area)
      case Some(q) => if Unusual(q) then [UnusualPricePerArea(unit.rowIndex, q)] else []
      case None => []
    else []
  }

  /** A unit is warned about exactly when area and price are both truthy numbers and
      price / area is below 100 or above 50000; the warning carries the unit's row and that
      quotient. */
  lemma UnitWarningsSpec(unit: MappedRow)
    ensures var r := UnitWarnings(unit);
      && (r != [] <==>
            && Get(unit, Area).Num? && Get(unit, Area).x != 0.0
            && Get(unit, Price).Num? && Get(unit, Price).x != 0.0
            && Unusual(Get(unit, Price).x / Get(unit, Area).x))
      && (r != [] ==> r[0] == UnusualPricePerArea(unit.rowIndex, Get(unit, Price).x / Get(unit, Area).x))
  {
  }

  /** The units of every sheet, sheet after sheet. */
  function AllUnits(extractedData: seq<SheetData>): seq<MappedRow>
  {
    if extractedData == [] then []
    else AllUnits(extractedData[..|extractedData| - 1]) + extractedData[|extractedData| - 1].data
  }

  function CriticalErrors(units: seq<MappedRow>): seq<CriticalError>
  {
    if units == [] then []
    else CriticalErrors(units[..|units| - 1]) + UnitErrors(units[|units| - 1])
  }

  function Warnings(units: seq<MappedRow>): seq<Warning>
  {
    if units == [] then []
    else Warnings(units[..|units| - 1]) + UnitWarnings(units[|units| - 1])
  }

  /** The checks of validateData on one unit, pushing onto the two lists. */
  method CheckUnit(unit: MappedRow, criticalErrors0: seq<CriticalError>, warnings0: seq<Warning>)
    returns (criticalErrors: seq<CriticalError>, warnings: seq<Warning>)
    ensures criticalErrors == criticalErrors0 + UnitErrors(unit)
    ensures warnings == warnings0 + UnitWarnings(unit)
  {
    criticalErrors, warnings := criticalErrors0, warnings0;
    if !Truthy(Get(unit, UnitNumber)) {
      criticalErrors := criticalErrors + [CriticalError(UnitNumberRequired, unit.rowIndex)];
    }
    if NotPositive(Get(unit, Area)) {
      criticalErrors := criticalErrors + [CriticalError(ValidAreaRequired, unit.rowIndex)];
    }
    if NotPositive(Get(unit, Price)) {
      criticalErrors := criticalErrors + [CriticalError(ValidPriceRequired, unit.rowIndex)];
    }
    if Truthy(Get(unit, Area)) && Truthy(Get(unit, Price)) {
      var pricePerSqft := Quotient(Get(unit, Price), Get(unit, Area));
      if pricePerSqft.Some? && Unusual(pricePerSqft.value) {
        warnings := warnings + [UnusualPricePerArea(unit.rowIndex, pricePerSqft.value)];
      }
    }
  }

  /** The nested loops of validateData. */
  method ValidateData(extractedData: seq<SheetData>) returns (result: ValidationResult)
    ensures result.errors == []
    ensures result.criticalErrors == CriticalErrors(AllUnits(extractedData))
    ensures result.warnings == Warnings(AllUnits(extractedData))
  {
    var warnings: seq<Warning> := [];
    var criticalErrors: seq<CriticalError> := [];
    var j := 0;
    while j < |extractedData|
      invariant 0 <= j <= |extractedData|
      invariant criticalErrors == CriticalErrors(AllUnits(extractedData[..j]))
      invariant warnings == Warnings(AllUnits(extractedData[..j]))
    {
      var units := extractedData[j].data;
      ghost var done := AllUnits(extractedData[..j]);
      var k := 0;
      assert done + units[..k] == done;
      while k < |units|
        invariant 0 <= k <= |units|
        invariant criticalErrors == CriticalErrors(done + units[..k])
        invariant warnings == Warnings(done + units[..k])
      {
        UnitsSnoc(done, units, k);
        criticalErrors, warnings := CheckUnit(units[k], criticalErrors, warnings);
        k := k + 1;
      }
      assert units[..k] == units;
      assert extractedData[..j + 1][..j] == extractedData[..j];
      j := j + 1;
    }
    assert extractedData[..j] == extractedData;
    result := ValidationResult([], warnings, criticalErrors);
  }

  /** Extending the units seen so far by the next unit extends the errors and the warnings
      by that unit's own. */
  lemma UnitsSnoc(done: seq<MappedRow>, units: seq<MappedRow>, k: nat)
    requires k < |units|
    ensures CriticalErrors(done + units[..k + 1]) == CriticalErrors(done + units[..k]) + UnitErrors(units[k])
    ensures Warnings(done + units[..k + 1]) == Warnings(done + units[..k]) + UnitWarnings(units[k])
  {
    assert (done + units[..k + 1])[..|done| + k] == done + units[..k];
  }

  function OfKind(kind: ErrorKind): CriticalError -> bool
  {
    (e: CriticalError) => e.kind == kind
  }

  function Failing(kind: ErrorKind): MappedRow -> bool
  {
    (u: MappedRow) => Fails(u, kind)
  }

  /** One error of the given kind for each unit of the list, with its row. */
  function ErrorsFor(units: seq<MappedRow>, kind: ErrorKind): (r: seq<CriticalError>)
    ensures |r| == |units| && forall i :: 0 <= i < |units| ==> r[i] == CriticalError(kind, units[i].rowIndex)
  {
    seq(|units|, i requires 0 <= i < |units| => CriticalError(kind, units[i].rowIndex))
  }

  lemma ErrorsForConcat(a: seq<MappedRow>, b: seq<MappedRow>, kind: ErrorKind)
    ensures ErrorsFor(a + b, kind) == ErrorsFor(a, kind) + ErrorsFor(b, kind)
  {
  }

  lemma ErrorIfOfKind(unit: MappedRow, k: ErrorKind, kind: ErrorKind)
    ensures Filter(ErrorIf(unit, k), OfKind(kind)) == if k == kind then ErrorIf(unit, k) else []
  {
    if Fails(unit, k) {
      assert ErrorIf(unit, k) == [] + [CriticalError(k, unit.rowIndex)];
      FilterSnoc([], CriticalError(k, unit.rowIndex), OfKind(kind));
    }
  }

  /** The errors of one unit of a kind are those of that kind's check. */
  lemma UnitErrorsOfKind(unit: MappedRow, kind: ErrorKind)
    ensures Filter(UnitErrors(unit), OfKind(kind)) == ErrorIf(unit, kind)
  {
    var a := ErrorIf(unit, UnitNumberRequired);
    var b := ErrorIf(unit, ValidAreaRequired);
    var c := ErrorIf(unit, ValidPriceRequired);
    FilterConcat3(a, b, c, OfKind(kind));
    ErrorIfOfKind(unit, UnitNumberRequired, kind);
    ErrorIfOfKind(unit, ValidAreaRequired, kind);
    ErrorIfOfKind(unit, ValidPriceRequired, kind);
  }

  lemma ErrorIfAsErrorsFor(unit: MappedRow, kind: ErrorKind)
    ensures ErrorIf(unit, kind) == ErrorsFor(if Fails(unit, kind) then [unit] else [], kind)
  {
  }

  /** For each check, the errors it produces are one per failing unit, in unit order, each
      with that unit's row: a bad area gives exactly one "Valid area is required", and so on. */
  lemma {:induction false} CriticalErrorsOfKind(units: seq<MappedRow>, kind: ErrorKind)
    ensures Filter(CriticalErrors(units), OfKind(kind)) == ErrorsFor(Filter(units, Failing(kind)), kind)
  {
    if units != [] {
      var init := units[..|units| - 1];
      var u := units[|units| - 1];
      CriticalErrorsOfKind(init, kind);
      FilterConcat(CriticalErrors(init), UnitErrors(u), OfKind(kind));
      UnitErrorsOfKind(u, kind);
      ErrorIfAsErrorsFor(u, kind);
      assert init + [u] == units;
      FilterSnoc(init, u, Failing(kind));
      ErrorsForConcat(Filter(init, Failing(kind)), if Fails(u, kind) then [u] else [], kind);
    }
  }

  predicate PassesChecks(unit: MappedRow)
  {
    !Fails(unit, UnitNumberRequired) && !Fails(unit, ValidAreaRequired) && !Fails(unit, ValidPriceRequired)
  }

  /** The upload aborts exactly when some unit fails a check. */
  lemma {:induction false} NoCriticalErrorsIff(units: seq<MappedRow>)
    ensures CriticalErrors(units) == [] <==> forall i :: 0 <= i < |units| ==> PassesChecks(units[i])
  {
    if units != [] {
      var init := units[..|units| - 1];
      NoCriticalErrorsIff(init);
      assert forall i :: 0 <= i < |init| ==> init[i] == units[i];
    }
  }

  /** On the values cleanValue gives (null, undefined or a number) a check passes exactly when
      the value is a positive number. */
  lemma NotPositiveNumbers(v: JsValue)
    requires !v.Str?
    ensures NotPositive(v) <==> !(v.Num? && v.x > 0.0)
  {
  }

  /** Comparing a quotient by a positive divisor is comparing the dividend with the product. */
  lemma QuotientCompare(price: real, area: real, bound: real)
    requires area > 0.0
    ensures price / area < bound <==> price < bound * area
    ensures price / area > bound <==> price > bound * area
  {
    var q := price / area;
    assert q * area == price;
    assert (bound - q) * area == bound * area - price;
  }

  /** For a positive area and a non-zero price, a unit is warned about exactly when its price
      is below 100 or above 50000 times its area. */
  lemma WarningIff(unit: MappedRow, area: real, price: real)
    requires Get(unit, Area) == Num(area) && area > 0.0
    requires Get(unit, Price) == Num(price) && price != 0.0
    ensures UnitWarnings(unit) != [] <==> price < 100.0 * area || price > 50000.0 * area
    ensures UnitWarnings(unit) != [] ==> UnitWarnings(unit) == [UnusualPricePerArea(unit.rowIndex, price / area)]
  {
    QuotientCompare(price, area, 100.0);
    QuotientCompare(price, area, 50000.0);
  }

  /** A price of 450 over an area of 10 (45 per unit) is warned about; 5000 over 10 (500 per
      unit) is not. */
  lemma WarningExamples(rowIndex: nat)
    ensures UnitWarnings(MappedRow(rowIndex, None, map[Area := Num(10.0), Price := Num(450.0)]))
      == [UnusualPricePerArea(rowIndex, 45.0)]
    ensures UnitWarnings(MappedRow(rowIndex, None, map[Area := Num(10.0), Price := Num(5000.0)])) == []
  {
  }

  /** mapColumns only keeps rows with a truthy unit_number, so "Unit number is required" is
      never reported for data that extractData produced. */
  lemma NoUnitNumberErrors(workbook: seq<Sheet>, structure: FileStructure)
    ensures Filter(CriticalErrors(AllUnits(ExtractAll(workbook, structure))), OfKind(UnitNumberRequired)) == []
  {
    var units := AllUnits(ExtractAll(workbook, structure));
    ExtractedHaveUnitNumbers(ExtractAll(workbook, structure), workbook, structure);
    CriticalErrorsOfKind(units, UnitNumberRequired);
    NoneFailing(units, UnitNumberRequired);
  }

  lemma {:induction false} NoneFailing(units: seq<MappedRow>, kind: ErrorKind)
    requires forall i :: 0 <= i < |units| ==> !Fails(units[i], kind)
    ensures Filter(units, Failing(kind)) == []
  {
    if units != [] {
      NoneFailing(units[..|units| - 1], kind);
    }
  }

  lemma {:induction false} ExtractedHaveUnitNumbers(extractedData: seq<SheetData>, workbook: seq<Sheet>, structure: FileStructure)
    requires forall k :: 0 <= k < |extractedData| ==> extractedData[k] in ExtractAll(workbook, structure)
    ensures forall i :: 0 <= i < |AllUnits(extractedData)| ==> HasUnitNumber(AllUnits(extractedData)[i])
  {
    if extractedData != [] {
      var init := extractedData[..|extractedData| - 1];
      var d := extractedData[|extractedData| - 1];
      ExtractedHaveUnitNumbers(init, workbook, structure);
      ExtractedSheetHasUnitNumbers(workbook, structure, d);
    }
  }

  lemma ExtractedSheetHasUnitNumbers(workbook: seq<Sheet>, structure: FileStructure, d: SheetData)
    requires d in ExtractAll(workbook, structure)
    ensures forall i :: 0 <= i < |d.data| ==> HasUnitNumber(d.data[i])
  {
    var all := ExtractAll(workbook, structure);
    var kept := Filter(workbook, HasData);
    ExtractAllSheets(workbook, structure);
    var k :| 0 <= k < |all| && all[k] == d;
    var sheet := kept[k];
    assert ExtractSheet(sheet, structure) == Some(d);
    var h := HeaderRowIndex(sheet.rows);
    MapColumnsRows(CreateColumnMapping(sheet.rows[h]), sheet.rows[h + 1..], SheetProjectName(structure, sheet.name));
  }
}
