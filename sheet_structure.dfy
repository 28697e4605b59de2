/** extractProjectInfo and detectFileStructure: project name and handover date from sheet
    names, and the single- or multi-project shape of a workbook.

    The two regular expressions are modelled by hand. Both are case-insensitive. In both, each
    `\s*` or `\s+` is followed by something that is not white space, so the greedy run of white
    space is the only one that can succeed, and the alternatives are mutually exclusive at any
    position; a match is therefore decided position by position, and the leftmost position wins. */
module SheetStructure {
  import opened Wrappers
  import opened JsText
  import opened Seqs

  datatype ProjectInfo = ProjectInfo(name: string, sheetName: string, handoverDate: Option<string>)

  datatype FileStructure =
    | MultiProject(projects: seq<ProjectInfo>, totalSheets: nat)
    | SingleProject(projectInfo: ProjectInfo)

  /** `\d{4}` at position i. */
  predicate FourDigitsAt(s: string, i: nat)
  {
    i + 4 <= |s| && IsDigit(s[i]) && IsDigit(s[i + 1]) && IsDigit(s[i + 2]) && IsDigit(s[i + 3])
  }

  /** s[i..e] has the shape `Q[1-4]\s+\d{4}` (either case of Q). */
  predicate QuarterShape(s: string, i: nat, e: nat)
  {
    && i + 7 <= e <= |s|
    && (s[i] == 'Q' || s[i] == 'q') && '1' <= s[i + 1] <= '4'
    && (forall k :: i + 2 <= k < e - 4 ==> IsWhiteSpace(s[k]))
    && FourDigitsAt(s, e - 4)
  }

  /** s[i..e] has the shape `[A-Z]{3}\s+\d{4}` (letters of either case). */
  predicate MonthShape(s: string, i: nat, e: nat)
  {
    && i + 8 <= e <= |s|
    && IsAsciiLetter(s[i]) && IsAsciiLetter(s[i + 1]) && IsAsciiLetter(s[i + 2])
    && (forall k :: i + 3 <= k < e - 4 ==> IsWhiteSpace(s[k]))
    && FourDigitsAt(s, e - 4)
  }

  /** s[i..e] has the shape of one alternative of the handover pattern. The three alternatives
      never both match at one position (the second character is a digit 1-4, a letter, or the
      first is a digit), so the order in which the regular expression tries them does not
      matter. */
  predicate HandoverShape(s: string, i: nat, e: nat)
  {
    QuarterShape(s, i, e) || MonthShape(s, i, e) || (e == i + 4 && FourDigitsAt(s, i))
  }

  /** `Q[1-4]\s+\d{4}` at position i: the end of the match. A digit is not white space, so
      the greedy run of white space is the only one after which the digits can start. */
  function QuarterAt(s: string, i: nat): (r: Option<nat>)
    requires i <= |s|
    ensures r.Some? ==> i + 7 <= r.value <= |s| && FourDigitsAt(s, r.value - 4)
    ensures r.Some? ==> (s[i] == 'Q' || s[i] == 'q') && '1' <= s[i + 1] <= '4'
    ensures r.Some? ==> forall k :: i + 2 <= k < r.value - 4 ==> IsWhiteSpace(s[k])
  {
    if i + 2 <= |s| && (s[i] == 'Q' || s[i] == 'q') && '1' <= s[i + 1] <= '4' then
      var w := WhiteSpaceRunEnd(s, i + 2);
      if w > i + 2 && FourDigitsAt(s, w) then Some(w + 4) else None
    else None
  }

  /** `[A-Z]{3}\s+\d{4}` at position i: the end of the match. */
  function MonthAt(s: string, i: nat): (r: Option<nat>)
    requires i <= |s|
    ensures r.Some? ==> i + 8 <= r.value <= |s| && FourDigitsAt(s, r.value - 4)
    ensures r.Some? ==> IsAsciiLetter(s[i]) && IsAsciiLetter(s[i + 1]) && IsAsciiLetter(s[i + 2])
    ensures r.Some? ==> forall k :: i + 3 <= k < r.value - 4 ==> IsWhiteSpace(s[k])
  {
    if i + 3 <= |s| && IsAsciiLetter(s[i]) && IsAsciiLetter(s[i + 1]) && IsAsciiLetter(s[i + 2]) then
      var w := WhiteSpaceRunEnd(s, i + 3);
      if w > i + 3 && FourDigitsAt(s, w) then Some(w + 4) else None
    else None
  }

  /** `Q[1-4]\s+\d{4}|[A-Z]{3}\s+\d{4}` at position i: the date token of the name pattern. */
  function DateTokenAt(s: string, i: nat): (r: Option<nat>)
    requires i <= |s|
    ensures r.Some? ==> i + 4 <= r.value <= |s| && FourDigitsAt(s, r.value - 4)
  {
    match QuarterAt(s, i)
    case Some(e) => Some(e)
    case None => MonthAt(s, i)
  }

  /** `Q[1-4]\s+\d{4}|[A-Z]{3}\s+\d{4}|\d{4}` at position i: the handover pattern. */
  function HandoverAt(s: string, i: nat): (r: Option<nat>)
    requires i <= |s|
    ensures r.Some? ==> i + 4 <= r.value <= |s| && FourDigitsAt(s, r.value - 4)
  {
    match DateTokenAt(s, i)
    case Some(e) => Some(e)
    case None => if FourDigitsAt(s, i) then Some(i + 4) else None
  }

  /** QuarterAt gives the end e exactly when s[i..e] has the shape `Q[1-4]\s+\d{4}`. */
  lemma QuarterAtIff(s: string, i: nat)
    requires i <= |s|
    ensures forall e: nat :: QuarterAt(s, i) == Some(e) <==> QuarterShape(s, i, e)
  {
  }

  /** MonthAt gives the end e exactly when s[i..e] has the shape `[A-Z]{3}\s+\d{4}`. */
  lemma MonthAtIff(s: string, i: nat)
    requires i <= |s|
    ensures forall e: nat :: MonthAt(s, i) == Some(e) <==> MonthShape(s, i, e)
  {
  }

  /** DateTokenAt gives the end e exactly when s[i..e] has one of the two date-token shapes. */
  lemma DateTokenAtIff(s: string, i: nat)
    requires i <= |s|
    ensures forall e: nat :: DateTokenAt(s, i) == Some(e) <==> QuarterShape(s, i, e) || MonthShape(s, i, e)
  {
    QuarterAtIff(s, i);
    MonthAtIff(s, i);
  }

  /** HandoverAt gives the end e exactly when s[i..e] has the shape of one alternative of the
      handover pattern. */
  lemma HandoverAtIff(s: string, i: nat)
    requires i <= |s|
    ensures forall e: nat :: HandoverAt(s, i) == Some(e) <==> HandoverShape(s, i, e)
  {
    DateTokenAtIff(s, i);
  }

  /** The positions where the handover pattern matches. */
  function HandoverMatches(s: string): nat -> bool
  {
    (j: nat) => j <= |s| && HandoverAt(s, j).Some?
  }

  /** The leftmost match of the handover pattern at or after position i, as (start, end). */
  function FirstHandover(s: string, i: nat): (r: Option<(nat, nat)>)
    requires i <= |s|
    ensures r.Some? ==> i <= r.value.0 < r.value.1 <= |s| && HandoverAt(s, r.value.0) == Some(r.value.1)
  {
    match FirstFrom(i, |s|, HandoverMatches(s))
    case None => None
    case Some(j) => Some((j, HandoverAt(s, j).value))
  }

  /** The match FirstHandover finds is the leftmost one: the pattern matches at no earlier
      position, and at none at all when it finds nothing. */
  lemma FirstHandoverLeast(s: string, i: nat)
    requires i <= |s|
    ensures var r := FirstHandover(s, i);
      && (r.Some? ==> forall j :: i <= j < r.value.0 ==> HandoverAt(s, j).None?)
      && (r.None? ==> forall j :: i <= j <= |s| ==> HandoverAt(s, j).None?)
  {
    var f := FirstFrom(i, |s|, HandoverMatches(s));
    forall j | i <= j <= |s| && (f.Some? ==> j < f.value)
      ensures HandoverAt(s, j).None?
    {
      assert !HandoverMatches(s)(j);
    }
  }

  predicate NoLineTerminator(s: string)
  {
    forall k :: 0 <= k < |s| ==> !IsLineTerminator(s[k])
  }

  /** `\s*-\s*(Q[1-4]\s+\d{4}|[A-Z]{3}\s+\d{4}).*$` matches from position p: white space, a
      hyphen, white space, a date token, then the rest of the line up to the end of the text. */
  predicate SuffixAt(s: string, p: nat)
    requires p <= |s|
  {
    var d := WhiteSpaceRunEnd(s, p);
    && d < |s| && s[d] == '-'
    && var q := WhiteSpaceRunEnd(s, d + 1);
       match DateTokenAt(s, q)
       case None => false
       case Some(e) => NoLineTerminator(s[e..])
  }

  /** The positions where the name suffix pattern matches. */
  function SuffixMatches(s: string): nat -> bool
  {
    (j: nat) => j <= |s| && SuffixAt(s, j)
  }

  /** The leftmost position at or after p where the name suffix pattern matches. */
  function FirstSuffix(s: string, p: nat): (r: Option<nat>)
    requires p <= |s|
    ensures r.Some? ==> p <= r.value <= |s| && SuffixAt(s, r.value)
  {
    FirstFrom(p, |s|, SuffixMatches(s))
  }

  /** The position FirstSuffix finds is the leftmost one: the suffix matches at no earlier
      position, and at none at all when it finds nothing. */
  lemma FirstSuffixNoEarlier(s: string, p: nat)
    requires p <= |s|
    ensures var r := FirstSuffix(s, p);
      && (r.Some? ==> forall j :: p <= j < r.value ==> !SuffixAt(s, j))
      && (r.None? ==> forall j :: p <= j <= |s| ==> !SuffixAt(s, j))
  {
    var r := FirstSuffix(s, p);
    forall j | p <= j <= |s| && (r.Some? ==> j < r.value)
      ensures !SuffixAt(s, j)
    {
      assert !SuffixMatches(s)(j);
    }
  }

  /** A position where the suffix matches, with no match before it, is the one FirstSuffix finds. */
  lemma FirstSuffixLeast(s: string)
    ensures forall p ::
      (0 <= p <= |s| && SuffixAt(s, p) && (forall j :: 0 <= j < p ==> !SuffixAt(s, j)))
      ==> FirstSuffix(s, 0) == Some(p)
  {
    forall p | 0 <= p <= |s| && SuffixAt(s, p) && (forall j :: 0 <= j < p ==> !SuffixAt(s, j))
      ensures FirstSuffix(s, 0) == Some(p)
    {
      forall k | 0 <= k < p ensures !SuffixMatches(s)(k) {
        assert !SuffixAt(s, k);
      }
      FirstFromLeast(0, |s|, SuffixMatches(s), p);
    }
  }

  /** The text of the leftmost handover match, or null when the pattern matches nowhere. */
  function HandoverDate(sheetName: string): (r: Option<string>)
    ensures r.Some? ==> |r.value| >= 4
  {
    match FirstHandover(sheetName, 0)
    case None => None
    case Some(m) => Some(sheetName[m.0..m.1])
  }

  /** HandoverDate is null exactly when the pattern matches nowhere, and otherwise the text
      from the leftmost position where it matches to the end of that match. */
  lemma HandoverDateLeftmost(sheetName: string)
    ensures HandoverDate(sheetName).None? <==> forall j :: 0 <= j <= |sheetName| ==> HandoverAt(sheetName, j).None?
    ensures forall i ::
      (0 <= i <= |sheetName| && HandoverAt(sheetName, i).Some?
       && (forall j :: 0 <= j < i ==> HandoverAt(sheetName, j).None?))
      ==> HandoverDate(sheetName) == Some(sheetName[i..HandoverAt(sheetName, i).value])
  {
    FirstHandoverLeast(sheetName, 0);
  }

  /** The sheet name cut where the dated suffix first matches, then trimmed: no longer than
      the sheet name, with no white space at either end. */
  function ProjectName(sheetName: string): (r: string)
    ensures |r| <= |sheetName|
    ensures r == [] || (!IsWhiteSpace(r[0]) && !IsWhiteSpace(r[|r| - 1]))
  {
    NameBefore(sheetName, FirstSuffix(sheetName, 0))
  }

  /** The sheet name cut at the given position, if any, then trimmed. */
  function NameBefore(sheetName: string, cut: Option<nat>): (r: string)
    requires cut.Some? ==> cut.value <= |sheetName|
    ensures |r| <= |sheetName|
    ensures r == [] || (!IsWhiteSpace(r[0]) && !IsWhiteSpace(r[|r| - 1]))
  {
    match cut
    case None => Trim(sheetName)
    case Some(p) => Trim(sheetName[..p])
  }

  /** ProjectName is the sheet name cut at the leftmost position where the dated suffix
      matches through the end, then trimmed; the whole name, trimmed, when the suffix
      matches nowhere. */
  lemma ProjectNameLeftmost(sheetName: string)
    ensures (forall p :: 0 <= p <= |sheetName| ==> !SuffixAt(sheetName, p)) ==> ProjectName(sheetName) == Trim(sheetName)
    ensures forall p ::
      (0 <= p <= |sheetName| && SuffixAt(sheetName, p)
       && (forall j :: 0 <= j < p ==> !SuffixAt(sheetName, j)))
      ==> ProjectName(sheetName) == Trim(sheetName[..p])
  {
    FirstSuffixLeast(sheetName);
  }

  /** extractProjectInfo: the project name, the sheet name itself and the handover date. The
      date, when there is one, is a piece of the sheet name at least four characters long; the
      name is no longer than the sheet name and has no white space at either end. */
  function ExtractProjectInfo(sheetName: string): (r: ProjectInfo)
    ensures r.sheetName == sheetName
    ensures r.handoverDate.Some? ==> |r.handoverDate.value| >= 4 && Contains(sheetName, r.handoverDate.value)
    ensures |r.name| <= |sheetName| && (r.name == [] || (!IsWhiteSpace(r.name[0]) && !IsWhiteSpace(r.name[|r.name| - 1])))
  {
    DateInSheetName(sheetName);
    ProjectInfo(ProjectName(sheetName), sheetName, HandoverDate(sheetName))
  }

  /** The handover date is a piece of the sheet name. */
  lemma DateInSheetName(sheetName: string)
    ensures HandoverDate(sheetName).Some? ==> Contains(sheetName, HandoverDate(sheetName).value)
  {
    match FirstHandover(sheetName, 0)
    case None =>
    case Some(m) => SliceContained(sheetName, m.0, m.1);
  }

  predicate HasFourDigitRun(s: string)
  {
    exists i :: 0 <= i <= |s| && FourDigitsAt(s, i)
  }

  /** Every part of both patterns needs four consecutive digits, so a sheet name without them
      has no handover date and keeps its whole trimmed text as the project name. */
  lemma NoFourDigitsNoDate(sheetName: string)
    requires !HasFourDigitRun(sheetName)
    ensures ExtractProjectInfo(sheetName) == ProjectInfo(Trim(sheetName), sheetName, None)
  {
    var s := sheetName;
    forall j | 0 <= j <= |s|
      ensures HandoverAt(s, j).None?
    {
    }
    forall j | 0 <= j <= |s|
      ensures !SuffixAt(s, j)
    {
    }
  }

  /** A sheet name made of a project name, " - " and a quarter date "Q<d> <yyyy>". */
  function QuarterDated(name: string, quarter: char, year: string): string
  {
    name + " - Q" + [quarter] + " " + year
  }

  /** The conditions under which a quarter-dated sheet name splits back into its parts: the
      name has no digit, no hyphen and no line terminator, and does not end in white space. */
  predicate SplittableName(name: string)
  {
    && (forall k :: 0 <= k < |name| ==> !IsDigit(name[k]) && name[k] != '-' && !IsLineTerminator(name[k]))
    && (name != [] ==> !IsWhiteSpace(name[|name| - 1]))
  }

  predicate IsYear(year: string)
  {
    |year| == 4 && forall k :: 0 <= k < 4 ==> IsDigit(year[k])
  }

  lemma QuarterDatedLayout(name: string, quarter: char, year: string)
    requires IsYear(year)
    ensures var s := QuarterDated(name, quarter, year);
      && |s| == |name| + 10
      && (forall k :: 0 <= k < |name| ==> s[k] == name[k])
      && s[|name|] == ' ' && s[|name| + 1] == '-' && s[|name| + 2] == ' '
      && s[|name| + 3] == 'Q' && s[|name| + 4] == quarter && s[|name| + 5] == ' '
      && s[|name| + 6..] == year
  {
  }

  /** The only run of four digits in a quarter-dated name is its year. */
  lemma QuarterDatedDigits(name: string, quarter: char, year: string, k: nat)
    requires SplittableName(name) && IsYear(year)
    ensures FourDigitsAt(QuarterDated(name, quarter, year), k) ==> k == |name| + 6
  {
    var s := QuarterDated(name, quarter, year);
    QuarterDatedLayout(name, quarter, year);
  }

  /** So a match that ends in four digits ends the quarter-dated name. */
  lemma QuarterDatedMatchEnd(name: string, quarter: char, year: string, m: Option<nat>)
    requires SplittableName(name) && IsYear(year)
    ensures m.Some? && m.value >= 4 && FourDigitsAt(QuarterDated(name, quarter, year), m.value - 4)
      ==> m.value == |name| + 10
  {
    if m.Some? && m.value >= 4 {
      QuarterDatedDigits(name, quarter, year, m.value - 4);
    }
  }

  /** Its quarter date is a match of the date-token pattern. */
  lemma QuarterDatedToken(name: string, quarter: char, year: string)
    requires IsYear(year) && '1' <= quarter <= '4'
    ensures var s := QuarterDated(name, quarter, year);
      && QuarterAt(s, |name| + 3) == Some(|name| + 10)
      && DateTokenAt(s, |name| + 3) == Some(|name| + 10)
      && HandoverAt(s, |name| + 3) == Some(|name| + 10)
  {
    var s := QuarterDated(name, quarter, year);
    var n := |name|;
    QuarterDatedLayout(name, quarter, year);
    assert WhiteSpaceRunEnd(s, n + 6) == n + 6;
    assert WhiteSpaceRunEnd(s, n + 5) == n + 6;
    assert FourDigitsAt(s, n + 6) by {
      assert forall k :: 0 <= k < 4 ==> s[n + 6 + k] == year[k];
    }
  }

  /** No handover match starts before the quarter date. */
  lemma QuarterDatedNoEarlierHandover(name: string, quarter: char, year: string, j: nat)
    requires SplittableName(name) && IsYear(year) && '1' <= quarter <= '4'
    requires j < |name| + 3
    ensures HandoverAt(QuarterDated(name, quarter, year), j).None?
  {
    var s := QuarterDated(name, quarter, year);
    QuarterDatedLayout(name, quarter, year);
    QuarterDatedMatchEnd(name, quarter, year, QuarterAt(s, j));
    QuarterDatedMatchEnd(name, quarter, year, MonthAt(s, j));
    QuarterDatedDigits(name, quarter, year, j);
  }

  lemma QuarterDatedHandover(name: string, quarter: char, year: string)
    requires SplittableName(name) && IsYear(year) && '1' <= quarter <= '4'
    ensures FirstHandover(QuarterDated(name, quarter, year), 0) == Some((|name| + 3, |name| + 10))
  {
    var s := QuarterDated(name, quarter, year);
    QuarterDatedLayout(name, quarter, year);
    QuarterDatedToken(name, quarter, year);
    forall k | 0 <= k < |name| + 3 ensures !HandoverMatches(s)(k) {
      QuarterDatedNoEarlierHandover(name, quarter, year, k);
    }
    FirstFromLeast(0, |s|, HandoverMatches(s), |name| + 3);
  }

  /** The dated suffix matches right after the name. */
  lemma QuarterDatedSuffixAt(name: string, quarter: char, year: string)
    requires IsYear(year) && '1' <= quarter <= '4'
    ensures SuffixAt(QuarterDated(name, quarter, year), |name|)
  {
    var s := QuarterDated(name, quarter, year);
    var n := |name|;
    QuarterDatedLayout(name, quarter, year);
    QuarterDatedToken(name, quarter, year);
    assert WhiteSpaceRunEnd(s, n + 1) == n + 1;
    assert WhiteSpaceRunEnd(s, n) == n + 1;
    assert WhiteSpaceRunEnd(s, n + 3) == n + 3;
    assert WhiteSpaceRunEnd(s, n + 2) == n + 3;
    assert s[n + 10..] == [];
  }

  /** It matches nowhere inside the name: reaching a hyphen needs white space up to it. */
  lemma QuarterDatedNoEarlierSuffix(name: string, quarter: char, year: string, p: nat)
    requires SplittableName(name) && IsYear(year)
    requires p < |name|
    ensures !SuffixAt(QuarterDated(name, quarter, year), p)
  {
    var s := QuarterDated(name, quarter, year);
    QuarterDatedLayout(name, quarter, year);
    var d := WhiteSpaceRunEnd(s, p);
    if d < |name| {
      assert s[d] == name[d];
    }
  }

  lemma QuarterDatedSuffix(name: string, quarter: char, year: string)
    requires SplittableName(name) && IsYear(year) && '1' <= quarter <= '4'
    ensures FirstSuffix(QuarterDated(name, quarter, year), 0) == Some(|name|)
  {
    var s := QuarterDated(name, quarter, year);
    QuarterDatedLayout(name, quarter, year);
    QuarterDatedSuffixAt(name, quarter, year);
    forall k | 0 <= k < |name| ensures !SuffixMatches(s)(k) {
      QuarterDatedNoEarlierSuffix(name, quarter, year, k);
    }
    FirstFromLeast(0, |s|, SuffixMatches(s), |name|);
  }

  lemma QuarterDatedName(name: string, quarter: char, year: string)
    requires SplittableName(name) && IsYear(year) && '1' <= quarter <= '4'
    ensures ProjectName(QuarterDated(name, quarter, year)) == Trim(name)
  {
    var s := QuarterDated(name, quarter, year);
    QuarterDatedSuffix(name, quarter, year);
    assert s[..|name|] == name;
  }

  lemma QuarterDatedDate(name: string, quarter: char, year: string)
    requires SplittableName(name) && IsYear(year) && '1' <= quarter <= '4'
    ensures HandoverDate(QuarterDated(name, quarter, year)) == Some("Q" + [quarter] + " " + year)
  {
    var s := QuarterDated(name, quarter, year);
    QuarterDatedHandover(name, quarter, year);
    QuarterDatedTail(name, quarter, year);
  }

  lemma QuarterDatedTail(name: string, quarter: char, year: string)
    requires IsYear(year)
    ensures QuarterDated(name, quarter, year)[|name| + 3..|name| + 10] == "Q" + [quarter] + " " + year
  {
    var date := "Q" + [quarter] + " " + year;
    assert QuarterDated(name, quarter, year) == (name + " - ") + date;
  }

  /** A quarter-dated sheet name yields its project name, trimmed, and its quarter date. */
  lemma QuarterDatedInfo(name: string, quarter: char, year: string)
    requires SplittableName(name) && IsYear(year) && '1' <= quarter <= '4'
    ensures ExtractProjectInfo(QuarterDated(name, quarter, year))
      == ProjectInfo(Trim(name), QuarterDated(name, quarter, year), Some("Q" + [quarter] + " " + year))
  {
    QuarterDatedName(name, quarter, year);
    QuarterDatedDate(name, quarter, year);
  }

  lemma TowerSplittable()
    ensures SplittableName("Tower A") && IsYear("2025")
  {
    var n := "Tower A";
    assert !IsWhiteSpace(n[6]);
    forall k | 0 <= k < 7
      ensures !IsDigit(n[k]) && n[k] != '-' && !IsLineTerminator(n[k])
    {
    }
  }

  lemma TowerSuffix()
    ensures FirstSuffix("Tower A - Q4 2025", 0) == Some(7)
  {
    assert QuarterDated("Tower A", '4', "2025") == "Tower A - Q4 2025";
    TowerSplittable();
    QuarterDatedSuffix("Tower A", '4', "2025");
  }

  lemma TowerTrim()
    ensures "Tower A - Q4 2025"[..7] == "Tower A" && Trim("Tower A") == "Tower A"
  {
    TrimUntouched("Tower A");
  }

  lemma TowerName()
    ensures ProjectName("Tower A - Q4 2025") == "Tower A"
  {
    TowerSuffix();
    TowerTrim();
  }

  lemma TowerDate()
    ensures HandoverDate("Tower A - Q4 2025") == Some("Q4 2025")
  {
    assert QuarterDated("Tower A", '4', "2025") == "Tower A - Q4 2025";
    assert "Q" + ['4'] + " " + "2025" == "Q4 2025";
    TowerSplittable();
    QuarterDatedDate("Tower A", '4', "2025");
  }

  /** "Tower A - Q4 2025" is the project "Tower A", handed over "Q4 2025". */
  lemma TowerExample()
    ensures ExtractProjectInfo("Tower A - Q4 2025") == ProjectInfo("Tower A", "Tower A - Q4 2025", Some("Q4 2025"))
  {
    TowerName();
    TowerDate();
  }

  /** detectFileStructure over the sheet names of a workbook: more than one sheet gives a
      multi-project structure with one project info per sheet, in sheet order; exactly one
      gives a single project built from it; none fails (the name of sheet 0 is undefined). */
  function DetectFileStructure(sheetNames: seq<string>): (r: Option<FileStructure>)
    ensures r.None? <==> sheetNames == []
    ensures r.Some? ==> (r.value.MultiProject? <==> |sheetNames| > 1)
    ensures r.Some? && r.value.MultiProject? ==>
      && r.value.totalSheets == |r.value.projects| == |sheetNames|
      && forall i :: 0 <= i < |sheetNames| ==> r.value.projects[i] == ExtractProjectInfo(sheetNames[i])
    ensures r.Some? && r.value.SingleProject? ==> r.value.projectInfo == ExtractProjectInfo(sheetNames[0])
  {
    if |sheetNames| > 1 then
      Some(MultiProject(seq(|sheetNames|, i requires 0 <= i < |sheetNames| => ExtractProjectInfo(sheetNames[i])), |sheetNames|))
    else if |sheetNames| == 1 then Some(SingleProject(ExtractProjectInfo(sheetNames[0])))
    else None
  }

  /** structure.projects.find(p => p.sheetName === name). */
  function FindBySheetName(projects: seq<ProjectInfo>, name: string): (r: Option<ProjectInfo>)
    ensures r.Some? ==> r.value in projects && r.value.sheetName == name
    ensures r.None? ==> forall i :: 0 <= i < |projects| ==> projects[i].sheetName != name
  {
    if projects == [] then None
    else if projects[0].sheetName == name then Some(projects[0])
    else FindBySheetName(projects[1..], name)
  }

  /** In a multi-project structure the lookup by sheet name always finds the info that
      extractProjectInfo gives for that very name. */
  lemma FindDetectedProject(sheetNames: seq<string>, i: nat)
    requires i < |sheetNames| && DetectFileStructure(sheetNames).Some? && DetectFileStructure(sheetNames).value.MultiProject?
    ensures FindBySheetName(DetectFileStructure(sheetNames).value.projects, sheetNames[i]) == Some(ExtractProjectInfo(sheetNames[i]))
  {
    var projects := DetectFileStructure(sheetNames).value.projects;
    assert projects[i].sheetName == sheetNames[i];
    var r := FindBySheetName(projects, sheetNames[i]);
    var p := r.value;
    var j :| 0 <= j < |projects| && projects[j] == p;
    assert p == ExtractProjectInfo(sheetNames[j]);
  }
}
