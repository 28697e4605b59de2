# Spreadsheet inventory upload: a Dafny model

This project models the core of a real-estate inventory platform.

- **Upload service.** A developer uploads an Excel workbook of units. The service:
  - reads a project name and a handover date from each sheet name;
  - finds each sheet's header row and maps header cells to ten canonical unit fields through a fixed alias table;
  - cleans every cell;
  - validates the units, splitting problems into critical errors and price-per-area warnings;
  - assembles projects and a summary;
  - runs a simulated database loop that reports progress every five units.

  The service keeps an upload-log ledger. Each log starts PROCESSING and ends COMPLETED or FAILED. `processUpload` runs six progress steps in a fixed order. Validation checks every unit, and when any unit has a critical error the upload aborts after step 2 with a message that lists all of them.
- **Agent routes.** `/inventory` filters the AVAILABLE units by project name and price bounds and joins each unit with its project. `/dashboard/stats` counts projects and available units.
- **Developer routes.** `/projects` lists the requesting developer's projects with their unit counts. `/projects/:id` does an ownership-checked lookup that answers 404 when it fails. `/dashboard/stats` totals the units.

## Structure

Modules follow the program's structure. One more module holds generic sequence facts.

| module | models |
|---|---|
| `JsText`, `JsNumber` | the JavaScript built-ins the code relies on: `trim`, `toLowerCase` (ASCII), `includes`, `join`, `String(n)`, `parseFloat`, `parseInt` |
| `Columns` | the alias table, `createColumnMapping`, `isHeaderRow`, and the header scan of `extractData` |
| `Cells`, `Rows` | `cleanValue`, `parseNumber`, `mapColumns` |
| `SheetStructure` | `extractProjectInfo` (both regular expressions, modelled by hand) and `detectFileStructure` |
| `Extraction`, `Validation`, `Processing` | the loops of `extractData`, `validateData`, `processData` and `simulateDatabase`, as methods proved equal to specification functions |
| `UploadService` | the ledger as a class (`uploadLogs: seq<UploadLog>`, updated in place), and `processUpload` |
| `Catalog`, `Agent`, `Developer` | the route handlers, as functions over the project and unit arrays |

Some of the code's behaviour is easy to misread:

- **Rows without a unit number.** `validateData` has a "Unit number is required" check. But `mapColumns` already drops every row without a truthy `unit_number` (services/excelUploadService.js:181). So that error can never be raised (`Validation.NoUnitNumberErrors`).
- **Single-sheet workbooks.** The name of the only sheet is parsed too. Its project name and handover date come from it.
- **Error messages.** A failure rethrows the specific error. The log and the `upload_error` event carry that same message.
- **Header matching.** The header-row test is a case-insensitive substring test. The column mapping is an exact match after lower-casing and trimming.

Inputs the code takes from outside are parameters of the model:

- the workbook as sheet names plus rows of cell text;
- whether a socket is connected;
- the two clock readings;
- the requesting user's id.

## Model

| member | source | states |
|---|---|---|
| JsText.Trim | services/excelUploadService.js:305 | the slice of the input that starts after its leading white space and is followed only by white space; no white space at either end; empty exactly when the input is all white space |
| JsText.TrimUntouched | services/excelUploadService.js:190 | text with no white space at either end is its own trim |
| JsText.ToLower | services/excelUploadService.js:190 | the same length; each upper-case ASCII letter becomes its lower-case letter, every other character is kept, and no upper-case ASCII letter is left |
| JsText.NatToString | services/excelUploadService.js:207 | the decimal text of a row number: only digits, no leading zero |
| JsNumber.ParseIntOfNatToString | services/excelUploadService.js:313 | parseInt reads the decimal text of n back as n |
| JsNumber.ParseFloatOfNatToString | services/excelUploadService.js:322 | parseFloat reads the decimal text of n back as n |
| JsNumber.ParseIntOfDigits | services/excelUploadService.js:313 | a digit string with no leading zero parses to its value |
| JsNumber.ParseFloatOfDigits | services/excelUploadService.js:322 | a digit string parses to its value |
| JsNumber.ParseFloatNaN | services/excelUploadService.js:322-323 | text that does not start with a digit, a sign or a point gives NaN (None) |
| Columns.AliasesDisjoint | services/excelUploadService.js:7-18 | no lower-cased alias belongs to two fields |
| Columns.MappingInjective | services/excelUploadService.js:184-197 | createColumnMapping never gives one column to two fields |
| Columns.LowerAliasesCorrect | services/excelUploadService.js:189-190 | the lower-cased alias table is each alias lower-cased and trimmed |
| Columns.HeaderMatchesIff | services/excelUploadService.js:188-192 | a header matches a field exactly when it is non-empty and equals one of the field's aliases after lower-casing and trimming both |
| Columns.ColumnIndex | services/excelUploadService.js:188-193 | the result is in [-1, number of headers); the header there matches; no earlier header matches; -1 means none matches |
| Columns.CreateColumnMapping | services/excelUploadService.js:184-197 | all ten fields are keys; each maps to its first matching header index, or to -1 when no header matches |
| Columns.MentionsUnitNumberAliases | services/excelUploadService.js:334-337 | the alias test is a case-insensitive substring test against the unit-number aliases |
| Columns.MentionsUnitNumberIff | services/excelUploadService.js:334-337 | that test is the same as the lower-cased cell containing "unit" |
| Columns.IsHeaderRowIff | services/excelUploadService.js:326-339 | a row is a header exactly when it has at least 3 cells, at least 3 non-blank cells, and a non-blank cell whose lower-cased text contains "unit" |
| Columns.IsHeaderRow | services/excelUploadService.js:326-339 | a header row has at least 3 cells, and one of its own non-blank cells contains a unit-number alias, case-insensitively |
| Columns.HeaderRowIndex | services/excelUploadService.js:139-145 | the first header row among the first min(3, n) rows, and 0 when there is none |
| Columns.FindHeaderRow | services/excelUploadService.js:139-145 | the scan loop returns HeaderRowIndex |
| Cells.StripNumberNoise | services/excelUploadService.js:321 | no comma, dollar sign or white space is left |
| Cells.StripNumberNoiseIsFilter | services/excelUploadService.js:321 | stripping keeps exactly the characters other than commas, dollar signs and white space, in their order |
| Cells.ParseNumber | services/excelUploadService.js:319-324 | null exactly when parseFloat reads no number from the stripped text, otherwise that number |
| Cells.CleanValue | services/excelUploadService.js:302-317 | the empty cell is null; area, price and balcony are parseNumber of the trimmed text; floor is the integer parseInt reads, null when that is 0 or NaN; any other field is the trimmed text |
| Cells.StripNumberNoiseClean | services/excelUploadService.js:321 | text without those characters is unchanged |
| Cells.CleanValueKinds | services/excelUploadService.js:302-317 | the empty cell gives null; area, price and balcony give null or a number; floor gives null or a non-zero integer; any other field gives the trimmed text; the result is never undefined |
| Cells.CleanNumericDecimal | services/excelUploadService.js:308-311 | a numeric cell whose stripped text is the decimal text of n becomes the number n |
| Cells.CleanFloorDecimal | services/excelUploadService.js:312-313 | a floor cell holding n becomes n, except that 0 becomes null |
| Cells.CleanPriceExample | services/excelUploadService.js:319-324 | "$1,250,000" as a price becomes 1250000 |
| Cells.CleanPriceUnparseable | services/excelUploadService.js:319-324 | "TBA" as a price becomes null |
| Rows.MapAll | services/excelUploadService.js:168-180 | one mapped row per data row, with _rowIndex equal to its position plus 2 and the _projectName it is given |
| Rows.GetMapRow | services/excelUploadService.js:174-178 | a field is the cleaned cell under its column when the column is not -1 and the row reaches it; otherwise it is undefined |
| Rows.HasUnitNumberIff | services/excelUploadService.js:181 | a row survives the filter exactly when there is a unit-number column, the row reaches it, and that cell is not blank |
| Rows.MapWithAt | services/excelUploadService.js:168-181 | the k-th result is the mapping of the k-th kept data row |
| Rows.MapColumnsRows | services/excelUploadService.js:165-182 | every result row is the mapping of data row _rowIndex - 2 and has a truthy unit_number |
| Rows.MapColumnsOrder | services/excelUploadService.js:168-181 | _rowIndex strictly increases along the result (input order is kept) |
| Rows.MapColumnsComplete | services/excelUploadService.js:181 | no data row with a truthy unit_number is dropped |
| Rows.MapRowWellTyped | services/excelUploadService.js:174-178 | each set field holds the kind of value cleanValue gives that field |
| Rows.MapColumnsWellTyped | services/excelUploadService.js:165-182 | every result row is well typed and has non-empty text as its unit_number |
| Rows.MapColumns | services/excelUploadService.js:165-182 | at most one row per data row, in data-row order, each with _rowIndex in [2, n + 2), the given _projectName and a truthy unit_number |
| SheetStructure.QuarterAtIff | services/excelUploadService.js:115 | gives the end e exactly when the text from i to e has the shape `Q[1-4]\s+\d{4}` (either case of Q) |
| SheetStructure.MonthAtIff | services/excelUploadService.js:115 | gives the end e exactly when the text from i to e has the shape `[A-Z]{3}\s+\d{4}` (letters of either case) |
| SheetStructure.HandoverAtIff | services/excelUploadService.js:115 | gives the end e exactly when the text from i to e has the shape of one of the three alternatives of the handover pattern |
| SheetStructure.FirstHandover | services/excelUploadService.js:115 | a match it finds starts at or after the starting position, and the handover pattern matches there up to the end it gives |
| SheetStructure.FirstHandoverLeast | services/excelUploadService.js:115 | that match is the leftmost: the pattern matches at no earlier position, and at none when nothing is found |
| SheetStructure.FirstSuffixNoEarlier | services/excelUploadService.js:116 | the position found is the leftmost one where the dated suffix matches through the end of the text; None means it matches nowhere |
| SheetStructure.FirstSuffixLeast | services/excelUploadService.js:116 | a position where the suffix matches, with no match before it, is the one found |
| SheetStructure.HandoverDateLeftmost | services/excelUploadService.js:115-121 | the text from the leftmost position where the handover pattern matches to the end of that match; null exactly when it matches nowhere |
| SheetStructure.ProjectNameLeftmost | services/excelUploadService.js:116 | the name cut at the leftmost position where the dated suffix matches through the end, then trimmed; the whole name trimmed when the suffix matches nowhere |
| SheetStructure.ExtractProjectInfo | services/excelUploadService.js:114-123 | keeps the sheet name; the handover date, when there is one, is a piece of the sheet name of at least four characters; the name has no white space at either end |
| SheetStructure.DateInSheetName | services/excelUploadService.js:115-121 | a handover date is a piece of the sheet name |
| SheetStructure.NoFourDigitsNoDate | services/excelUploadService.js:114-123 | a name without four consecutive digits has a null handover date and keeps its trimmed text as its name |
| SheetStructure.QuarterDatedName | services/excelUploadService.js:116 | "name - Q<d> <yyyy>" gives the trimmed name |
| SheetStructure.QuarterDatedDate | services/excelUploadService.js:115 | "name - Q<d> <yyyy>" gives the handover date "Q<d> <yyyy>" |
| SheetStructure.QuarterDatedInfo | services/excelUploadService.js:114-123 | extractProjectInfo splits a quarter-dated sheet name back into its name and its date |
| SheetStructure.TowerExample | services/excelUploadService.js:114-123 | "Tower A - Q4 2025" is the project "Tower A" handed over "Q4 2025" |
| SheetStructure.DetectFileStructure | services/excelUploadService.js:96-112 | MULTI_PROJECT exactly when there is more than one sheet, with one project info per sheet in sheet order; otherwise SINGLE_PROJECT from sheet 0; None (a TypeError) for an empty workbook |
| SheetStructure.FindBySheetName | services/excelUploadService.js:155 | a found project info has that sheet name; None means no project info has it |
| SheetStructure.FindDetectedProject | services/excelUploadService.js:155 | in a detected multi-project structure, the lookup finds the sheet's own project info |
| Extraction.ExtractSheet | services/excelUploadService.js:136-159 | a sheet gives an entry exactly when it has at least two rows |
| Extraction.ExtractAll | services/excelUploadService.js:125-163 | at most one entry per sheet |
| Extraction.ExtractData | services/excelUploadService.js:125-163 | the loop returns ExtractAll |
| Extraction.ExtractSheetData | services/excelUploadService.js:139-159 | the loop body builds the sheet's entry |
| Extraction.ExtractAllSheets | services/excelUploadService.js:128-160 | exactly the sheets with at least two rows, in workbook order, each extracted |
| Extraction.ExtractedProjectInfo | services/excelUploadService.js:152-156 | every entry carries the project info of its own sheet name (of sheet 0 for a single-project file) |
| Validation.ErrorMessages | services/excelUploadService.js:207-215 | one text per critical error, in order, each "Row N: " with the error's row and ending in " is required" |
| Validation.UnitErrorsSpec | services/excelUploadService.js:206-216 | at most three errors, all with the unit's row, with an error of a kind exactly when the unit fails that check |
| Validation.UnitWarningsSpec | services/excelUploadService.js:218-223 | one warning exactly when area and price are both non-zero numbers and price / area is below 100 or above 50000; it carries the row and the quotient |
| Validation.CheckUnit | services/excelUploadService.js:206-223 | the three checks and the warning check append the unit's own errors and warning |
| Validation.ValidateData | services/excelUploadService.js:199-228 | errors is empty; criticalErrors and warnings are those of all units, sheet after sheet |
| Validation.CriticalErrorsOfKind | services/excelUploadService.js:204-216 | for each check, exactly one error per failing unit, in unit order, with that unit's row |
| Validation.UnitErrorsOfKind | services/excelUploadService.js:206-216 | a unit's errors of one kind are exactly that check's error |
| Validation.NoCriticalErrorsIff | services/excelUploadService.js:204-216 | there is no critical error exactly when every unit passes all three checks |
| Validation.NotPositiveNumbers | services/excelUploadService.js:210-216 | on null, undefined or a number, a check passes exactly when the value is a positive number |
| Validation.QuotientCompare | services/excelUploadService.js:219-220 | for a positive area, comparing price / area with a bound is the same as comparing price with bound * area |
| Validation.WarningIff | services/excelUploadService.js:218-223 | for a positive area and a non-zero price, a unit is warned about exactly when price < 100 * area or price > 50000 * area, with the quotient |
| Validation.WarningExamples | services/excelUploadService.js:218-223 | 450 over 10 is warned about (45); 5000 over 10 is not |
| Validation.NoUnitNumberErrors | services/excelUploadService.js:206-208 | extracted data never yields "Unit number is required" |
| Validation.ExtractedSheetHasUnitNumbers | services/excelUploadService.js:181 | every extracted unit has a truthy unit_number |
| Processing.ToProject | services/excelUploadService.js:236-252 | the project info's name and handover date, the location "Business Bay, Dubai", and one unit per mapped row with its number, its price and `<name>-<unit_number>` as the default code |
| Processing.ProjectsOf | services/excelUploadService.js:235-256 | one project per extracted entry, in order, with that entry's name and handover date, the fixed location and one unit per row |
| Processing.ExtractedHasProjectInfos | services/excelUploadService.js:152-156 | data extracted with the detected structure always has the project info processData reads |
| Processing.ProcessData | services/excelUploadService.js:230-268 | the loop returns the developer id, ProjectsOf, and a summary of the entry count, the running unit total and the timestamp |
| Processing.TotalUnitsCountsAll | services/excelUploadService.js:254-264 | unitsProcessed is the number of all units of all sheets |
| Processing.ToUnitFields | services/excelUploadService.js:240-251 | unit_number is kept; base_price == current_price == the parsed price; unit_code is the unit's own code when truthy, else `<name>-<unit_number>` |
| Processing.ToUnit | services/excelUploadService.js:240-251 | every mapped field carried over under its new name; base_price == current_price == price; the unit's own truthy unit_code, else `<projectName>-<unit_number>` |
| Processing.TemplateText | services/excelUploadService.js:241 | text as it is; null and undefined by name; a whole non-negative number in decimal |
| Processing.ProjectsOfUnits | services/excelUploadService.js:240-251 | unit i of project k is unit i of entry k with its number, area and price, base_price == current_price, and `<project name>-<unit_number>` as the default code |
| Processing.ProjectsOfWorkbook | services/excelUploadService.js:235-239 | with the detected structure, project k is named and dated from its own sheet name (from the first sheet's name for one sheet) and located at "Business Bay, Dubai" |
| Processing.ValidatedUnitsPositive | services/excelUploadService.js:210-216 | after validation passes, every processed unit has a positive numeric area and a positive numeric current price |
| Processing.SimulateDatabase | services/excelUploadService.js:270-290 | the nested loops emit ProgressTrace of the unit owners; nothing without a socket |
| Processing.ProgressTraceClosedForm | services/excelUploadService.js:279-287 | floor(n/5) unit_progress events; the k-th reports 5(k+1) units and the project of unit 5(k+1) |
| Processing.UnitOwnersCount | services/excelUploadService.js:272-279 | the loop visits each of the unitsProcessed units once |
| UploadService.NewLog | services/excelUploadService.js:341-349 | the id is the ledger length plus 1; the status is PROCESSING; no counts, summary or error yet |
| UploadService.FindLog | services/excelUploadService.js:356 | the first index holding the id; None means no log has it |
| UploadService.FindLogSequential | services/excelUploadService.js:343-356 | with sequential ids, the log with id k is at index k - 1 |
| UploadService.CompleteLogEffect | services/excelUploadService.js:355-363 | only the first log with the id changes, to COMPLETED with the summary's counts and the summary; every other field and log is kept; an unknown id changes nothing |
| UploadService.FailLogEffect | services/excelUploadService.js:365-371 | only the first log with the id changes, to FAILED with the error; everything else is kept; an unknown id changes nothing |
| UploadService.CompleteLog | services/excelUploadService.js:355-363 | the same length and ids; every log of another id unchanged; a changed status is COMPLETED |
| UploadService.FailLog | services/excelUploadService.js:365-371 | the same length and ids; every log of another id unchanged; a changed status is FAILED |
| UploadService.UpdatesKeepIds | services/excelUploadService.js:355-371 | completing or failing a log keeps the ids sequential |
| UploadService.HistoryContents | services/excelUploadService.js:373-375 | the history holds exactly the developer's logs, with increasing ids |
| UploadService.TraceHasNoSteps | services/excelUploadService.js:281-286 | the unit_progress events hold no upload_progress event |
| UploadService.ProgressStepsAre | services/excelUploadService.js:378-382 | progress steps 1..n in order, each out of 6 |
| UploadService.UploadRun | services/excelUploadService.js:26-57 | aborts only after step 1 or step 2; after step 1 (TypeError) exactly when the workbook is empty; after step 2 with a "Validation failed: " message; when finished, the developer id, the timestamp, and one project per processed entry, at most one per sheet |
| UploadService.RunProgress | services/excelUploadService.js:23-94 | the upload_progress events are steps 1..6 when the upload finishes and 1..k when it aborts after step k; the last event is upload_error exactly when it aborts |
| UploadService.RunCases | services/excelUploadService.js:37-47 | an abort happens after step 1 (empty workbook) or step 2 (critical errors, with "Validation failed: " and the messages joined by ", "); the upload finishes exactly when there is no critical error |
| UploadService.FinishedSummary | services/excelUploadService.js:52-57 | a finished upload counts the sheets with data and all their units, carries the timestamp, and emits units/5 unit_progress events |
| UploadService.RunLogState | services/excelUploadService.js:70-84 | the log ends FAILED with the error exactly when the upload aborts, and COMPLETED with the counts exactly when it finishes; id, owner, file and creation time are kept |
| UploadService.ExcelUploadService.constructor | services/excelUploadService.js:20 | the ledger starts empty |
| UploadService.ExcelUploadService.CreateUploadLog | services/excelUploadService.js:341-353 | appends NewLog and returns it; ids stay sequential |
| UploadService.ExcelUploadService.Find | services/excelUploadService.js:356 | the scan returns FindLog |
| UploadService.ExcelUploadService.CompleteUploadLog | services/excelUploadService.js:355-363 | the new ledger is CompleteLog of the old one |
| UploadService.ExcelUploadService.FailUploadLog | services/excelUploadService.js:365-371 | the new ledger is FailLog of the old one |
| UploadService.ExcelUploadService.GetUploadHistory | services/excelUploadService.js:373-375 | exactly the developer's logs, in insertion order |
| UploadService.ExcelUploadService.RunSteps | services/excelUploadService.js:26-81 | the outcome and events of the try block, matching UploadRun |
| UploadService.ExcelUploadService.ProcessUpload | services/excelUploadService.js:23-94 | the outcome is RunOutcome; the events are the step events plus upload_complete or upload_error when connected; the ledger gains exactly one log, in its final state |
| Catalog.UnitsOf | routes/developer.js:34 | exactly the units with that project id, in the order of the array, one per matching position |
| Agent.FindProject | routes/agent.js:35 | the first project with the id; None means no project has it |
| Agent.SelectedUnits | routes/agent.js:13-31 | at most as many units as the array; each is in the array, AVAILABLE, and passes every given filter |
| Agent.Inventory | routes/agent.js:10-48 | one entry per selected unit, in order |
| Agent.SelectedUnitsFilter | routes/agent.js:13-31 | the chain of filters is one filter by the conjunction of the applied conditions |
| Agent.InventoryMembership | routes/agent.js:13-31 | a unit is listed exactly when it is AVAILABLE, belongs to a project whose lower-cased name contains the lower-cased query (when given), and is within the given price bounds |
| Agent.InventoryOrder | routes/agent.js:13-34 | entries follow the order of the units array |
| Agent.InventoryJoin | routes/agent.js:34-47 | each entry has the name, location and handover date of the first project with its id, or 'Unknown Project' with nulls; total is the number of entries |
| Agent.QueryIgnoresCategoryAndLocation | routes/agent.js:11 | the location and category parameters change nothing |
| Agent.UnreadableBoundEmpties | routes/agent.js:25-31 | a given price bound that parseFloat cannot read leaves no unit |
| Agent.DashboardStats | routes/agent.js:52-62 | total_projects is the number of projects; available_units is the number of positions holding an AVAILABLE unit; my_leads, active_bookings and notifications are 0 |
| Agent.StatsMatchInventory | routes/agent.js:52-62 | with no filter, available_units equals the inventory total |
| Developer.ListProjects | routes/developer.js:10-20 | the developer's projects in order, each with unit_count the number of positions in the units array holding a unit of that project |
| Developer.ListProjectsOwned | routes/developer.js:11 | a project is listed exactly when it is in the array and owned by the user |
| Developer.FindOwned | routes/developer.js:25 | the first project with the id that the user owns; None means there is none |
| Developer.ProjectDetail | routes/developer.js:23-42 | 404 'Project not found', or a project with the parsed id owned by the user, with exactly the units with its id |
| Developer.ProjectDetailCases | routes/developer.js:23-42 | 404 'Project not found' exactly when the id cannot be read or there is no owned project with it; otherwise the project and exactly the units with that project id |
| Developer.AvailableAtMostTotal | routes/developer.js:48-54 | available_units <= total_units |
| Developer.TotalIsSumOfCounts | routes/developer.js:48-50 | total_units is the sum of the unit counts /projects reports |
| Developer.DashboardStatsFacts | routes/developer.js:46-66 | the project count; total_units as that sum; available <= total; sold = total - available >= 0; recent_uploads is 0 |
| Developer.DashboardStats | routes/developer.js:46-66 | the number of owned projects; available_units <= total_units; sold_units = total_units - available_units >= 0; recent_uploads is 0 |
| Developer.TotalCountsOwnedUnits | routes/developer.js:48-50 | with distinct project ids, total_units is the number of units that belong to one of the developer's projects |

## Left out

- Workbook decoding is not modelled: `XLSX.read`, `sheet_to_json` and the file system calls (`readFileSync`, `unlinkSync`, `existsSync`). The workbook is a parameter, a list of named sheets of cell text. Read errors, and the deletion of the uploaded file, are not modelled.
- The `setTimeout` delays of `simulateDatabase`, `processPricingOptions` and `notifyAgents` are left out. The last two do nothing else, so steps 5 and 6 emit only their progress events. `pricingData` is always empty and is not a field of the model.
- The socket is the flag `connected`. The emitted events are returned in order; the `success: true` flag of `upload_complete` is not modelled.
- The clock readings (`created_at`, the summary timestamp) are parameters.
- Floating point is not modelled. Numbers are exact `real`s, so `parseFloat` does no rounding, and "Infinity" is not parsed.
- Validation.UnitWarningsSpec: a warning keeps the row and the exact price per square foot, not the message text built with `toFixed(2)`.
- JsText.ToLower: `toLowerCase` is modelled on ASCII letters only.
- Processing.TemplateText: a number is printed as its integral part. Only a text or null `unit_number` reaches it from `mapColumns`.
- SheetStructure.FindBySheetName: it does not state that it finds the first match (`find`). Sheet names in a workbook are distinct, and FindDetectedProject states that the right one is found.
- Regular expressions in general are not modelled. Only the two patterns of `extractProjectInfo` are, by hand.
- Express, multer, authentication, the socket services and the UI are not part of this model. Neither is the `/notifications` mock route, whose answer is a constant.
- UploadService.ExcelUploadService.ProcessUpload: the upload runs as one atomic step. In the code, the awaits between steps let two uploads interleave on the shared `uploadLogs`. Its contract (the old ledger plus one final log) assumes that no other upload runs at the same time.
- Persistence is not modelled. The in-memory project and unit arrays of the routes are parameters.
