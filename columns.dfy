/** The static column-alias table, the header-row test and the header-to-field mapping of
    the spreadsheet upload service. */
module Columns {
  import opened JsText
  import opened Seqs

  /** The canonical unit fields, in the order of the alias table. */
  datatype Field = UnitNumber | UnitCode | Floor | Category | SubType | Area | Balcony | Price | View | Project

  const AllFields: set<Field> := {UnitNumber, UnitCode, Floor, Category, SubType, Area, Balcony, Price, View, Project}


  /** The header texts accepted for each field. */
  function Aliases(f: Field): seq<string>
  {
    match f
    case UnitNumber => ["UNIT NO.", "Unit", "UNIT NO", "Unit Number"]
    case UnitCode => ["UNIT CODE", "Unit Code", "CODE"]
    case Floor => ["LEVEL", "FLOOR", "Floor", "Level"]
    case Category => ["UNIT CATEGORY", "Type", "CATEGORY", "Unit Category"]
    case SubType => ["Unit Sub Type", "SUB UNIT TYPE", "Sub Type"]
    case Area => ["AREA", "Net(sqft)", "Area", "SQFT"]
    case Balcony => ["Balcony", "BALCONY"]
    case Price => ["PRICE", "Original Price", "Base Price"]
    case View => ["Unit View", "Views", "ACTUAL VIEW", "View"]
    case Project => ["TOWER", "PROJECT", "Project Name"]
  }

  /** The same table lower-cased. No alias has white space at either end, so this is also
      the table after lower-casing and trimming. */
  function LowerAliases(f: Field): seq<string>
  {
    match f
    case UnitNumber => ["unit no.", "unit", "unit no", "unit number"]
    case UnitCode => ["unit code", "unit code", "code"]
    case Floor => ["level", "floor", "floor", "level"]
    case Category => ["unit category", "type", "category", "unit category"]
    case SubType => ["unit sub type", "sub unit type", "sub type"]
    case Area => ["area", "net(sqft)", "area", "sqft"]
    case Balcony => ["balcony", "balcony"]
    case Price => ["price", "original price", "base price"]
    case View => ["unit view", "views", "actual view", "view"]
    case Project => ["tower", "project", "project name"]
  }

  /** No normalised alias belongs to two fields. */
  lemma AliasesDisjoint(f: Field, g: Field, x: string)
    requires x in LowerAliases(f) && x in LowerAliases(g)
    ensures f == g
  {
    AliasKeyOf(f, x);
    AliasKeyOf(g, x);
    KeyFieldOf(f, AliasKey(x));
    KeyFieldOf(g, AliasKey(x));
  }

  /** Length, first and last character: enough to tell the aliases of different fields apart. */
  function AliasKey(x: string): (int, char, char)
  {
    if x == [] then (0, ' ', ' ') else (|x|, x[0], x[|x| - 1])
  }

  /** The keys of a field's aliases; no key belongs to two fields. */
  function AliasKeys(f: Field): set<(int, char, char)>
  {
    match f
    case UnitNumber => {(4, 'u', 't'), (7, 'u', 'o'), (8, 'u', '.'), (11, 'u', 'r')}
    case UnitCode => {(4, 'c', 'e'), (9, 'u', 'e')}
    case Floor => {(5, 'f', 'r'), (5, 'l', 'l')}
    case Category => {(4, 't', 'e'), (8, 'c', 'y'), (13, 'u', 'y')}
    case SubType => {(8, 's', 'e'), (13, 's', 'e'), (13, 'u', 'e')}
    case Area => {(4, 'a', 'a'), (4, 's', 't'), (9, 'n', ')')}
    case Balcony => {(7, 'b', 'y')}
    case Price => {(5, 'p', 'e'), (10, 'b', 'e'), (14, 'o', 'e')}
    case View => {(4, 'v', 'w'), (5, 'v', 's'), (9, 'u', 'w'), (11, 'a', 'w')}
    case Project => {(5, 't', 'r'), (7, 'p', 't'), (12, 'p', 'e')}
  }

  /** The field a key belongs to. */
  function KeyField(k: (int, char, char)): Field
  {
    if k in AliasKeys(UnitNumber) then UnitNumber
    else if k in AliasKeys(UnitCode) then UnitCode
    else if k in AliasKeys(Floor) then Floor
    else if k in AliasKeys(Category) then Category
    else if k in AliasKeys(SubType) then SubType
    else if k in AliasKeys(Area) then Area
    else if k in AliasKeys(Balcony) then Balcony
    else if k in AliasKeys(Price) then Price
    else if k in AliasKeys(View) then View
    else Project
  }

  lemma KeyFieldOf(f: Field, k: (int, char, char))
    requires k in AliasKeys(f)
    ensures KeyField(k) == f
  {
  }

  lemma AliasKeyOf(f: Field, x: string)
    requires x in LowerAliases(f)
    ensures AliasKey(x) in AliasKeys(f)
  {
  }

  /** Header text compared after lower-casing and trimming. */
  function Normalize(s: string): string
  {
    Trim(ToLower(s))
  }

  predicate NoEdgeWhiteSpace(s: string)
  {
    s == [] || (!IsWhiteSpace(s[0]) && !IsWhiteSpace(s[|s| - 1]))
  }

  lemma LowerAliasTextUnitNumber()
    ensures ToLower("UNIT NO.") == "unit no."
      && ToLower("Unit") == "unit"
      && ToLower("UNIT NO") == "unit no"
      && ToLower("Unit Number") == "unit number"
  {
    assert ToLower("UNIT NO.") == "unit no.";
    assert ToLower("Unit") == "unit";
    assert ToLower("UNIT NO") == "unit no";
    assert ToLower("Unit Number") == "unit number";
  }

  lemma LowerAliasesUnitNumber()
    ensures |LowerAliases(UnitNumber)| == |Aliases(UnitNumber)|
    ensures forall i :: 0 <= i < |Aliases(UnitNumber)| ==>
      ToLower(Aliases(UnitNumber)[i]) == LowerAliases(UnitNumber)[i] && NoEdgeWhiteSpace(LowerAliases(UnitNumber)[i])
  {
    LowerAliasTextUnitNumber();
    forall i | 0 <= i < |Aliases(UnitNumber)|
      ensures ToLower(Aliases(UnitNumber)[i]) == LowerAliases(UnitNumber)[i] && NoEdgeWhiteSpace(LowerAliases(UnitNumber)[i])
    {
      if i == 0 {} else if i == 1 {} else if i == 2 {} else {}
    }
  }

  lemma LowerAliasTextUnitCode()
    ensures ToLower("UNIT CODE") == "unit code"
      && ToLower("Unit Code") == "unit code"
      && ToLower("CODE") == "code"
  {
    assert ToLower("UNIT CODE") == "unit code";
    assert ToLower("Unit Code") == "unit code";
    assert ToLower("CODE") == "code";
  }

  lemma LowerAliasesUnitCode()
    ensures |LowerAliases(UnitCode)| == |Aliases(UnitCode)|
    ensures forall i :: 0 <= i < |Aliases(UnitCode)| ==>
      ToLower(Aliases(UnitCode)[i]) == LowerAliases(UnitCode)[i] && NoEdgeWhiteSpace(LowerAliases(UnitCode)[i])
  {
    LowerAliasTextUnitCode();
    forall i | 0 <= i < |Aliases(UnitCode)|
      ensures ToLower(Aliases(UnitCode)[i]) == LowerAliases(UnitCode)[i] && NoEdgeWhiteSpace(LowerAliases(UnitCode)[i])
    {
      if i == 0 {} else if i == 1 {} else {}
    }
  }

  lemma LowerAliasTextFloor()
    ensures ToLower("LEVEL") == "level"
      && ToLower("FLOOR") == "floor"
      && ToLower("Floor") == "floor"
      && ToLower("Level") == "level"
  {
    assert ToLower("LEVEL") == "level";
    assert ToLower("FLOOR") == "floor";
    assert ToLower("Floor") == "floor";
    assert ToLower("Level") == "level";
  }

  lemma LowerAliasesFloor()
    ensures |LowerAliases(Floor)| == |Aliases(Floor)|
    ensures forall i :: 0 <= i < |Aliases(Floor)| ==>
      ToLower(Aliases(Floor)[i]) == LowerAliases(Floor)[i] && NoEdgeWhiteSpace(LowerAliases(Floor)[i])
  {
    LowerAliasTextFloor();
    forall i | 0 <= i < |Aliases(Floor)|
      ensures ToLower(Aliases(Floor)[i]) == LowerAliases(Floor)[i] && NoEdgeWhiteSpace(LowerAliases(Floor)[i])
    {
      if i == 0 {} else if i == 1 {} else if i == 2 {} else {}
    }
  }

  lemma LowerAliasTextCategory()
    ensures ToLower("UNIT CATEGORY") == "unit category"
      && ToLower("Type") == "type"
      && ToLower("CATEGORY") == "category"
      && ToLower("Unit Category") == "unit category"
  {
    assert ToLower("UNIT CATEGORY") == "unit category";
    assert ToLower("Type") == "type";
    assert ToLower("CATEGORY") == "category";
    assert ToLower("Unit Category") == "unit category";
  }

  lemma LowerAliasesCategory()
    ensures |LowerAliases(Category)| == |Aliases(Category)|
    ensures forall i :: 0 <= i < |Aliases(Category)| ==>
      ToLower(Aliases(Category)[i]) == LowerAliases(Category)[i] && NoEdgeWhiteSpace(LowerAliases(Category)[i])
  {
    LowerAliasTextCategory();
    forall i | 0 <= i < |Aliases(Category)|
      ensures ToLower(Aliases(Category)[i]) == LowerAliases(Category)[i] && NoEdgeWhiteSpace(LowerAliases(Category)[i])
    {
      if i == 0 {} else if i == 1 {} else if i == 2 {} else {}
    }
  }

  lemma LowerAliasTextSubType()
    ensures ToLower("Unit Sub Type") == "unit sub type"
      && ToLower("SUB UNIT TYPE") == "sub unit type"
      && ToLower("Sub Type") == "sub type"
  {
    assert ToLower("Unit Sub Type") == "unit sub type";
    assert ToLower("SUB UNIT TYPE") == "sub unit type";
    assert ToLower("Sub Type") == "sub type";
  }

  lemma LowerAliasesSubType()
    ensures |LowerAliases(SubType)| == |Aliases(SubType)|
    ensures forall i :: 0 <= i < |Aliases(SubType)| ==>
      ToLower(Aliases(SubType)[i]) == LowerAliases(SubType)[i] && NoEdgeWhiteSpace(LowerAliases(SubType)[i])
  {
    LowerAliasTextSubType();
    forall i | 0 <= i < |Aliases(SubType)|
      ensures ToLower(Aliases(SubType)[i]) == LowerAliases(SubType)[i] && NoEdgeWhiteSpace(LowerAliases(SubType)[i])
    {
      if i == 0 {} else if i == 1 {} else {}
    }
  }

  lemma LowerAliasTextArea()
    ensures ToLower("AREA") == "area"
      && ToLower("Net(sqft)") == "net(sqft)"
      && ToLower("Area") == "area"
      && ToLower("SQFT") == "sqft"
  {
    assert ToLower("AREA") == "area";
    assert ToLower("Net(sqft)") == "net(sqft)";
    assert ToLower("Area") == "area";
    assert ToLower("SQFT") == "sqft";
  }

  lemma LowerAliasesArea()
    ensures |LowerAliases(Area)| == |Aliases(Area)|
    ensures forall i :: 0 <= i < |Aliases(Area)| ==>
      ToLower(Aliases(Area)[i]) == LowerAliases(Area)[i] && NoEdgeWhiteSpace(LowerAliases(Area)[i])
  {
    LowerAliasTextArea();
    forall i | 0 <= i < |Aliases(Area)|
      ensures ToLower(Aliases(Area)[i]) == LowerAliases(Area)[i] && NoEdgeWhiteSpace(LowerAliases(Area)[i])
    {
      if i == 0 {} else if i == 1 {} else if i == 2 {} else {}
    }
  }

  lemma LowerAliasTextBalcony()
    ensures ToLower("Balcony") == "balcony"
      && ToLower("BALCONY") == "balcony"
  {
    assert ToLower("Balcony") == "balcony";
    assert ToLower("BALCONY") == "balcony";
  }

  lemma LowerAliasesBalcony()
    ensures |LowerAliases(Balcony)| == |Aliases(Balcony)|
    ensures forall i :: 0 <= i < |Aliases(Balcony)| ==>
      ToLower(Aliases(Balcony)[i]) == LowerAliases(Balcony)[i] && NoEdgeWhiteSpace(LowerAliases(Balcony)[i])
  {
    LowerAliasTextBalcony();
    forall i | 0 <= i < |Aliases(Balcony)|
      ensures ToLower(Aliases(Balcony)[i]) == LowerAliases(Balcony)[i] && NoEdgeWhiteSpace(LowerAliases(Balcony)[i])
    {
      if i == 0 {} else {}
    }
  }

  lemma LowerAliasTextPrice()
    ensures ToLower("PRICE") == "price"
      && ToLower("Original Price") == "original price"
      && ToLower("Base Price") == "base price"
  {
    assert ToLower("PRICE") == "price";
    assert ToLower("Original Price") == "original price";
    assert ToLower("Base Price") == "base price";
  }

  lemma LowerAliasesPrice()
    ensures |LowerAliases(Price)| == |Aliases(Price)|
    ensures forall i :: 0 <= i < |Aliases(Price)| ==>
      ToLower(Aliases(Price)[i]) == LowerAliases(Price)[i] && NoEdgeWhiteSpace(LowerAliases(Price)[i])
  {
    LowerAliasTextPrice();
    forall i | 0 <= i < |Aliases(Price)|
      ensures ToLower(Aliases(Price)[i]) == LowerAliases(Price)[i] && NoEdgeWhiteSpace(LowerAliases(Price)[i])
    {
      if i == 0 {} else if i == 1 {} else {}
    }
  }

  lemma LowerAliasTextView()
    ensures ToLower("Unit View") == "unit view"
      && ToLower("Views") == "views"
      && ToLower("ACTUAL VIEW") == "actual view"
      && ToLower("View") == "view"
  {
    assert ToLower("Unit View") == "unit view";
    assert ToLower("Views") == "views";
    assert ToLower("ACTUAL VIEW") == "actual view";
    assert ToLower("View") == "view";
  }

  lemma LowerAliasesView()
    ensures |LowerAliases(View)| == |Aliases(View)|
    ensures forall i :: 0 <= i < |Aliases(View)| ==>
      ToLower(Aliases(View)[i]) == LowerAliases(View)[i] && NoEdgeWhiteSpace(LowerAliases(View)[i])
  {
    LowerAliasTextView();
    forall i | 0 <= i < |Aliases(View)|
      ensures ToLower(Aliases(View)[i]) == LowerAliases(View)[i] && NoEdgeWhiteSpace(LowerAliases(View)[i])
    {
      if i == 0 {} else if i == 1 {} else if i == 2 {} else {}
    }
  }

  lemma LowerAliasTextProject()
    ensures ToLower("TOWER") == "tower"
      && ToLower("PROJECT") == "project"
      && ToLower("Project Name") == "project name"
  {
    assert ToLower("TOWER") == "tower";
    assert ToLower("PROJECT") == "project";
    assert ToLower("Project Name") == "project name";
  }

  lemma LowerAliasesProject()
    ensures |LowerAliases(Project)| == |Aliases(Project)|
    ensures forall i :: 0 <= i < |Aliases(Project)| ==>
      ToLower(Aliases(Project)[i]) == LowerAliases(Project)[i] && NoEdgeWhiteSpace(LowerAliases(Project)[i])
  {
    LowerAliasTextProject();
    forall i | 0 <= i < |Aliases(Project)|
      ensures ToLower(Aliases(Project)[i]) == LowerAliases(Project)[i] && NoEdgeWhiteSpace(LowerAliases(Project)[i])
    {
      if i == 0 {} else if i == 1 {} else {}
    }
  }

  lemma LowerAliasesLowered(f: Field)
    ensures |LowerAliases(f)| == |Aliases(f)|
    ensures forall i :: 0 <= i < |Aliases(f)| ==>
      ToLower(Aliases(f)[i]) == LowerAliases(f)[i] && NoEdgeWhiteSpace(LowerAliases(f)[i])
  {
    match f
    case UnitNumber => LowerAliasesUnitNumber();
    case UnitCode => LowerAliasesUnitCode();
    case Floor => LowerAliasesFloor();
    case Category => LowerAliasesCategory();
    case SubType => LowerAliasesSubType();
    case Area => LowerAliasesArea();
    case Balcony => LowerAliasesBalcony();
    case Price => LowerAliasesPrice();
    case View => LowerAliasesView();
    case Project => LowerAliasesProject();
  }

  /** Every lower-cased alias is its alias lower-cased, and also its alias normalised. */
  lemma LowerAliasesCorrect(f: Field)
    ensures |LowerAliases(f)| == |Aliases(f)|
    ensures forall i :: 0 <= i < |Aliases(f)| ==>
      ToLower(Aliases(f)[i]) == LowerAliases(f)[i] && Normalize(Aliases(f)[i]) == LowerAliases(f)[i]
  {
    LowerAliasesLowered(f);
    forall i | 0 <= i < |Aliases(f)|
      ensures Normalize(Aliases(f)[i]) == LowerAliases(f)[i]
    {
      TrimUntouched(LowerAliases(f)[i]);
    }
  }

  /** A non-empty header cell whose normalised text is a normalised alias of f. */
  predicate HeaderMatches(header: string, f: Field)
  {
    header != "" && Normalize(header) in LowerAliases(f)
  }

  /** The header test as createColumnMapping states it: the header is truthy and equals some
      alternative once both are lower-cased and trimmed. */
  lemma HeaderMatchesIff(header: string, f: Field)
    ensures HeaderMatches(header, f) <==>
      header != "" && exists alt :: alt in Aliases(f) && Normalize(header) == Normalize(alt)
  {
    LowerAliasesCorrect(f);
    NormalizedTable(Normalize(header), Aliases(f), LowerAliases(f));
  }

  /** A text is in a table of normalised aliases exactly when it is the normalisation of one
      of the aliases. */
  lemma NormalizedTable(x: string, aliases: seq<string>, lowered: seq<string>)
    requires |lowered| == |aliases|
    requires forall i :: 0 <= i < |aliases| ==> Normalize(aliases[i]) == lowered[i]
    ensures x in lowered <==> exists alt :: alt in aliases && x == Normalize(alt)
  {
    if x in lowered {
      var i :| 0 <= i < |lowered| && lowered[i] == x;
      assert aliases[i] in aliases;
    }
  }

  function MatchesField(f: Field): string -> bool
  {
    (header: string) => HeaderMatches(header, f)
  }

  /** The column of field f: the first matching header index, or -1 when no header matches. */
  function ColumnIndex(headers: seq<string>, f: Field): (k: int)
    ensures -1 <= k < |headers|
    ensures k != -1 ==> HeaderMatches(headers[k], f)
    ensures forall j :: 0 <= j < (if k == -1 then |headers| else k) ==> !HeaderMatches(headers[j], f)
  {
    FindFrom(headers, MatchesField(f), 0)
  }

  /** createColumnMapping: every canonical field is mapped to its first matching header
      index, or to -1 when no header matches it. */
  function CreateColumnMapping(headers: seq<string>): (m: map<Field, int>)
    ensures m.Keys == AllFields
    ensures forall f :: f in m ==> -1 <= m[f] < |headers|
    ensures forall f :: f in m && m[f] != -1 ==> HeaderMatches(headers[m[f]], f)
    ensures forall f, j :: f in m && 0 <= j < |headers| && (m[f] == -1 || j < m[f]) ==> !HeaderMatches(headers[j], f)
  {
    map f | f in AllFields :: ColumnIndex(headers, f)
  }

  /** A header matches at most one field, so createColumnMapping never gives one column to
      two fields. */
  lemma MappingInjective(headers: seq<string>, f: Field, g: Field)
    ensures var m := CreateColumnMapping(headers);
      m[f] != -1 && m[f] == m[g] ==> f == g
  {
    var m := CreateColumnMapping(headers);
    if m[f] != -1 && m[f] == m[g] {
      AliasesDisjoint(f, g, Normalize(headers[m[f]]));
    }
  }

  /** A cell that is not blank after trimming. */
  predicate IsNonBlank(c: string)
  {
    Trim(c) != ""
  }

  function NonBlankCells(row: seq<string>): seq<string>
  {
    Filter(row, IsNonBlank)
  }

  /** A cell whose lower-cased text contains some lower-cased unit-number alias. */
  predicate MentionsUnitNumber(c: string)
  {
    exists alt :: alt in LowerAliases(UnitNumber) && Contains(ToLower(c), alt)
  }

  /** The alias test as isHeaderRow states it, both sides lower-cased. */
  lemma MentionsUnitNumberAliases(c: string)
    ensures MentionsUnitNumber(c) <==> exists alt :: alt in Aliases(UnitNumber) && Contains(ToLower(c), ToLower(alt))
  {
    LowerAliasesCorrect(UnitNumber);
    if MentionsUnitNumber(c) {
      var i :| 0 <= i < |LowerAliases(UnitNumber)| && Contains(ToLower(c), LowerAliases(UnitNumber)[i]);
      assert Aliases(UnitNumber)[i] in Aliases(UnitNumber);
    }
  }

  /** isHeaderRow: at least three cells, at least three of them non-blank, and a non-blank cell
      that contains a unit-number alias. */
  predicate IsHeaderRow(row: seq<string>)
    ensures IsHeaderRow(row) ==> |row| >= 3 && exists i :: 0 <= i < |row| && IsNonBlank(row[i]) && MentionsUnitNumber(row[i])
  {
    MentionInNonBlankCells(row);
    && |row| >= 3
    && |NonBlankCells(row)| >= 3
    && exists c :: c in NonBlankCells(row) && MentionsUnitNumber(c)
  }

  /** A non-blank cell that mentions a unit-number alias sits at some position of the row. */
  lemma MentionInNonBlankCells(row: seq<string>)
    ensures (exists c :: c in NonBlankCells(row) && MentionsUnitNumber(c)) ==>
      exists i :: 0 <= i < |row| && IsNonBlank(row[i]) && MentionsUnitNumber(row[i])
  {
    if c :| c in NonBlankCells(row) && MentionsUnitNumber(c) {
      FilterMembership(row, IsNonBlank, c);
      var i :| 0 <= i < |row| && row[i] == c;
    }
  }

  /** Since every unit-number alias contains "unit" and "Unit" is one of them, the alias test
      is the same as asking for "unit" in the lower-cased cell. */
  lemma MentionsUnitNumberIff(c: string)
    ensures MentionsUnitNumber(c) <==> Contains(ToLower(c), "unit")
  {
    forall alt | alt in LowerAliases(UnitNumber)
      ensures Contains(alt, "unit")
    {
      assert OccursAt(alt, "unit", 0);
    }
    if MentionsUnitNumber(c) {
      var alt :| alt in LowerAliases(UnitNumber) && Contains(ToLower(c), alt);
      ContainsTransitive(ToLower(c), alt, "unit");
    }
    if Contains(ToLower(c), "unit") {
      assert "unit" in LowerAliases(UnitNumber);
    }
  }

  /** The header test in full: at least three cells, at least three non-blank cells, and a
      non-blank cell whose lower-cased text contains "unit". */
  lemma IsHeaderRowIff(row: seq<string>)
    ensures IsHeaderRow(row) <==>
      && |row| >= 3
      && |NonBlankCells(row)| >= 3
      && exists i :: 0 <= i < |row| && IsNonBlank(row[i]) && Contains(ToLower(row[i]), "unit")
  {
    if IsHeaderRow(row) {
      var c :| c in NonBlankCells(row) && MentionsUnitNumber(c);
      MentionsUnitNumberIff(c);
      FilterMembership(row, IsNonBlank, c);
      var i :| 0 <= i < |row| && row[i] == c;
    }
    if exists i :: 0 <= i < |row| && IsNonBlank(row[i]) && Contains(ToLower(row[i]), "unit") {
      var i :| 0 <= i < |row| && IsNonBlank(row[i]) && Contains(ToLower(row[i]), "unit");
      MentionsUnitNumberIff(row[i]);
      FilterMembership(row, IsNonBlank, row[i]);
    }
  }

  function Min(a: int, b: int): int
  {
    if a < b then a else b
  }

  /** The header row: the first row among the first min(3, n) rows that passes isHeaderRow,
      otherwise row 0. */
  function HeaderRowIndex(rows: seq<seq<string>>): (k: nat)
    ensures k < 3 && (k < |rows| || k == 0)
    ensures || (k < |rows| && IsHeaderRow(rows[k]) && forall j :: 0 <= j < k ==> !IsHeaderRow(rows[j]))
            || (k == 0 && forall j :: 0 <= j < Min(3, |rows|) ==> !IsHeaderRow(rows[j]))
  {
    FirstWithin(rows, IsHeaderRow, 3, 0)
  }

  /** The header scan of extractData: a loop over the first min(3, n) rows that stops at the
      first header row. */
  method FindHeaderRow(rows: seq<seq<string>>) returns (headerRowIndex: nat)
    ensures headerRowIndex == HeaderRowIndex(rows)
  {
    headerRowIndex := 0;
    var i := 0;
    while i < Min(3, |rows|)
      invariant 0 <= i <= Min(3, |rows|)
      invariant headerRowIndex == 0
      invariant FirstWithin(rows, IsHeaderRow, 3, i) == HeaderRowIndex(rows)
    {
      if IsHeaderRow(rows[i]) {
        headerRowIndex := i;
        return;
      }
      i := i + 1;
    }
  }
}
