/** ExcelUploadService: the upload-log ledger and the six steps of processUpload. */
module UploadService {
  import opened Wrappers
  import opened JsText
  import opened Seqs
  import opened SheetStructure
  import opened Extraction
  import opened Validation
  import opened Processing

  datatype Status = Processing | Completed | Failed

  /** An upload log record. The fields set by completeUploadLog and failUploadLog are absent
      (None) until those run. */
  datatype UploadLog = UploadLog(
    id: int, developerId: int, filename: string, fileSize: nat, status: Status, createdAt: string,
    projectsProcessed: Option<nat>, unitsProcessed: Option<nat>, summary: Option<Summary>,
    errorDetails: Option<string>)

  /** The uploaded file as the upload route hands it over. */
  datatype UploadFile = UploadFile(originalName: string, size: nat)

  /** The record createUploadLog appends for the n-th log. */
  function NewLog(n: nat, file: UploadFile, developerId: int, createdAt: string): (log: UploadLog)
    ensures log.id == n + 1 && log.status == Processing
    ensures log.projectsProcessed.None? && log.unitsProcessed.None? && log.summary.None? && log.errorDetails.None?
  {
    UploadLog(n + 1, developerId, file.originalName, file.size, Processing, createdAt, None, None, None, None)
  }

  /** The ids of the ledger are 1, 2, ... in insertion order, since logs are only appended. */
  ghost predicate IdsAreSequential(logs: seq<UploadLog>)
  {
    forall i :: 0 <= i < |logs| ==> logs[i].id == i + 1
  }

  /** uploadLogs.find(l => l.id === logId), as an index. */
  function FindLog(logs: seq<UploadLog>, logId: int): (r: Option<nat>)
    ensures r.Some? ==> r.value < |logs| && logs[r.value].id == logId
    ensures r.Some? ==> forall j :: 0 <= j < r.value ==> logs[j].id != logId
    ensures r.None? ==> forall j :: 0 <= j < |logs| ==> logs[j].id != logId
  {
    if logs == [] then None
    else if logs[0].id == logId then Some(0)
    else match FindLog(logs[1..], logId)
      case None => None
      case Some(j) => Some(j + 1)
  }

  /** In a ledger with sequential ids, the log with id k is at index k - 1. */
  lemma FindLogSequential(logs: seq<UploadLog>, logId: int)
    requires IdsAreSequential(logs)
    ensures FindLog(logs, logId) == if 1 <= logId <= |logs| then Some(logId - 1) else None
  {
    if 1 <= logId <= |logs| {
      assert logs[logId - 1].id == logId;
    }
  }

  function Complete(log: UploadLog, summary: Summary): UploadLog
  {
    log.(status := Completed, projectsProcessed := Some(summary.projectsProcessed),
      unitsProcessed := Some(summary.unitsProcessed), summary := Some(summary))
  }

  function Fail(log: UploadLog, errorMessage: string): UploadLog
  {
    log.(status := Failed, errorDetails := Some(errorMessage))
  }

  /** The ledger after completeUploadLog: as long as before, with every id kept and every log
      of another id unchanged. */
  function CompleteLog(logs: seq<UploadLog>, logId: int, summary: Summary): (r: seq<UploadLog>)
    ensures |r| == |logs|
    ensures forall j :: 0 <= j < |logs| ==> r[j].id == logs[j].id
    ensures forall j :: 0 <= j < |logs| && logs[j].id != logId ==> r[j] == logs[j]
    ensures forall j :: 0 <= j < |logs| && r[j].status != logs[j].status ==> r[j].status == Completed
  {
    match FindLog(logs, logId)
    case None => logs
    case Some(i) => logs[i := Complete(logs[i], summary)]
  }

  /** The ledger after failUploadLog: as long as before, with every id kept and every log of
      another id unchanged. */
  function FailLog(logs: seq<UploadLog>, logId: int, errorMessage: string): (r: seq<UploadLog>)
    ensures |r| == |logs|
    ensures forall j :: 0 <= j < |logs| ==> r[j].id == logs[j].id
    ensures forall j :: 0 <= j < |logs| && logs[j].id != logId ==> r[j] == logs[j]
    ensures forall j :: 0 <= j < |logs| && r[j].status != logs[j].status ==> r[j].status == Failed
  {
    match FindLog(logs, logId)
    case None => logs
    case Some(i) => logs[i := Fail(logs[i], errorMessage)]
  }

  /** Completing or failing the newest log, when its id is found there, replaces just it. */
  lemma NewestLogUpdates(logs: seq<UploadLog>, log: UploadLog, summary: Summary, errorMessage: string)
    requires FindLog(logs + [log], log.id) == Some(|logs|)
    ensures CompleteLog(logs + [log], log.id, summary) == logs + [Complete(log, summary)]
    ensures FailLog(logs + [log], log.id, errorMessage) == logs + [Fail(log, errorMessage)]
  {
    var all := logs + [log];
    var n := |logs|;
    assert all[n] == log;
    assert CompleteLog(all, log.id, summary) == all[n := Complete(log, summary)];
    UpdateLast(logs, log, Complete(log, summary));
    assert FailLog(all, log.id, errorMessage) == all[n := Fail(log, errorMessage)];
    UpdateLast(logs, log, Fail(log, errorMessage));
  }

  /** completeUploadLog marks the first log with the id COMPLETED with the summary's counts,
      and changes nothing else; an unknown id leaves the ledger as it was. */
  lemma CompleteLogEffect(logs: seq<UploadLog>, logId: int, summary: Summary)
    ensures var r := CompleteLog(logs, logId, summary);
      && |r| == |logs|
      && (forall j :: 0 <= j < |logs| && logs[j].id != logId ==> r[j] == logs[j])
      && ((forall j :: 0 <= j < |logs| ==> logs[j].id != logId) ==> r == logs)
      && forall j :: 0 <= j < |logs| && logs[j].id == logId && (forall i :: 0 <= i < j ==> logs[i].id != logId) ==>
           && r[j].status == Completed
           && r[j].projectsProcessed == Some(summary.projectsProcessed)
           && r[j].unitsProcessed == Some(summary.unitsProcessed)
           && r[j].summary == Some(summary)
           && r[j].(status := logs[j].status, projectsProcessed := logs[j].projectsProcessed,
                unitsProcessed := logs[j].unitsProcessed, summary := logs[j].summary) == logs[j]
  {
    var r := CompleteLog(logs, logId, summary);
    forall j | 0 <= j < |logs| && logs[j].id == logId && (forall i :: 0 <= i < j ==> logs[i].id != logId)
      ensures FindLog(logs, logId) == Some(j)
    {
    }
  }

  /** failUploadLog marks the first log with the id FAILED with the error message, and changes
      nothing else; an unknown id leaves the ledger as it was. */
  lemma FailLogEffect(logs: seq<UploadLog>, logId: int, errorMessage: string)
    ensures var r := FailLog(logs, logId, errorMessage);
      && |r| == |logs|
      && (forall j :: 0 <= j < |logs| && logs[j].id != logId ==> r[j] == logs[j])
      && ((forall j :: 0 <= j < |logs| ==> logs[j].id != logId) ==> r == logs)
      && forall j :: 0 <= j < |logs| && logs[j].id == logId && (forall i :: 0 <= i < j ==> logs[i].id != logId) ==>
           && r[j].status == Failed
           && r[j].errorDetails == Some(errorMessage)
           && r[j].(status := logs[j].status, errorDetails := logs[j].errorDetails) == logs[j]
  {
    var r := FailLog(logs, logId, errorMessage);
    forall j | 0 <= j < |logs| && logs[j].id == logId && (forall i :: 0 <= i < j ==> logs[i].id != logId)
      ensures FindLog(logs, logId) == Some(j)
    {
    }
  }

  /** Completing or failing a log keeps the ids sequential. */
  lemma UpdatesKeepIds(logs: seq<UploadLog>, logId: int, summary: Summary, errorMessage: string)
    requires IdsAreSequential(logs)
    ensures IdsAreSequential(CompleteLog(logs, logId, summary))
    ensures IdsAreSequential(FailLog(logs, logId, errorMessage))
  {
  }

  function OwnedBy(developerId: int): UploadLog -> bool
  {
    (log: UploadLog) => log.developerId == developerId
  }

  lemma HistoryContents(logs: seq<UploadLog>, developerId: int)
    ensures var history := Filter(logs, OwnedBy(developerId));
      && (forall l :: l in history <==> l in logs && l.developerId == developerId)
      && (IdsAreSequential(logs) ==> forall k, l :: 0 <= k < l < |history| ==> history[k].id < history[l].id)
  {
    var history := Filter(logs, OwnedBy(developerId));
    forall l
      ensures l in history <==> l in logs && l.developerId == developerId
    {
      FilterMembership(logs, OwnedBy(developerId), l);
    }
    if IdsAreSequential(logs) {
      var idx := KeptIndices(logs, OwnedBy(developerId));
      KeptIndicesIncreasing(logs, OwnedBy(developerId));
      forall k | 0 <= k < |history|
        ensures history[k].id == idx[k] + 1
      {
        KeptIndicesElements(logs, OwnedBy(developerId), k);
      }
    }
  }

  /** The outcome processUpload resolves or rejects with. */
  datatype UploadOutcome = Success(summary: Summary, warnings: seq<Warning>) | Thrown(message: string)

  /** The status and message of upload_progress step 1..6. */
  function StepStatus(step: nat): string
  {
    match step
    case 1 => "analyzing"
    case 2 => "validating"
    case 3 => "preparing"
    case 4 => "processing"
    case 5 => "pricing"
    case _ => "finalizing"
  }

  function StepMessage(step: nat): string
  {
    match step
    case 1 => "Analyzing file structure..."
    case 2 => "Validating data..."
    case 3 => "Preparing database..."
    case 4 => "Processing units..."
    case 5 => "Processing pricing options..."
    case _ => "Notifying agents..."
  }

  const TotalSteps: nat := 6

  function Progress(step: nat): Event
  {
    UploadProgress(StepStatus(step), StepMessage(step), step, TotalSteps)
  }

  /** upload_progress for steps 1 to n. */
  function ProgressSteps(n: nat): seq<Event>
  {
    if n == 0 then [] else ProgressSteps(n - 1) + [Progress(n)]
  }

  lemma FirstProgressSteps()
    ensures ProgressSteps(1) == [Progress(1)]
    ensures ProgressSteps(2) == [Progress(1), Progress(2)]
    ensures ProgressSteps(4) == [Progress(1), Progress(2), Progress(3), Progress(4)]
  {
    assert ProgressSteps(0) == [];
    assert ProgressSteps(1) == ProgressSteps(0) + [Progress(1)];
    assert ProgressSteps(2) == ProgressSteps(1) + [Progress(2)];
    assert ProgressSteps(3) == ProgressSteps(2) + [Progress(3)];
    assert ProgressSteps(4) == ProgressSteps(3) + [Progress(4)];
  }

  /** The error extractProjectInfo raises on the missing first sheet name of an empty workbook. */
  const NoSheetError := "Cannot read properties of undefined (reading 'match')"

  function ValidationFailure(criticalErrors: seq<CriticalError>): string
  {
    "Validation failed: " + Join(ErrorMessages(criticalErrors), ", ")
  }

  /** How an upload run ends: thrown after progress step `step`, or finished with the
      processed data and the validation warnings. */
  datatype Run = Aborted(step: nat, error: string) | Finished(processed: ProcessedData, warnings: seq<Warning>)

  /** What processUpload computes from the workbook: detect the structure, extract, validate,
      and either stop at the first critical error or process the data. */
  function UploadRun(workbook: seq<Sheet>, developerId: int, timestamp: string): (r: Run)
    ensures r.Aborted? ==> r.step == 1 || r.step == 2
    ensures r == Aborted(1, NoSheetError) <==> workbook == []
    ensures r.Aborted? && r.step == 2 ==> |r.error| >= 19 && r.error[..19] == "Validation failed: "
    ensures r.Finished? ==>
      && r.processed.developerId == developerId
      && r.processed.summary.timestamp == timestamp
      && r.processed.summary.projectsProcessed == |r.processed.projects| <= |workbook|
  {
    match DetectFileStructure(SheetNames(workbook))
    case None => Aborted(1, NoSheetError)
    case Some(structure) =>
      var extracted := ExtractAll(workbook, structure);
      var units := AllUnits(extracted);
      if CriticalErrors(units) != [] then Aborted(2, ValidationFailure(CriticalErrors(units)))
      else
        ExtractedHasProjectInfos(workbook);
        Finished(ProcessedData(developerId, ProjectsOf(extracted),
          Summary(|extracted|, TotalUnits(extracted), timestamp)), Warnings(units))
  }

  /** The events a run emits on a connected socket before its last one: the progress steps up
      to the abort, or all six steps with the unit progress after step 4. */
  function StepEvents(run: Run): seq<Event>
  {
    match run
    case Aborted(step, _) => ProgressSteps(step)
    case Finished(processed, _) =>
      ProgressSteps(4)
        + ProgressTrace(UnitOwners(processed.projects), processed.summary.unitsProcessed)
        + [Progress(5), Progress(6)]
  }

  /** upload_error with the message, or upload_complete with the summary. */
  function FinalEvent(run: Run): Event
  {
    match run
    case Aborted(_, error) => UploadError(error)
    case Finished(processed, _) => UploadComplete(processed.summary)
  }

  function RunEvents(run: Run): seq<Event>
  {
    StepEvents(run) + [FinalEvent(run)]
  }

  function RunOutcome(run: Run): UploadOutcome
  {
    match run
    case Aborted(_, error) => Thrown(error)
    case Finished(processed, warnings) => Success(processed.summary, warnings)
  }

  /** The final state of the log processUpload created. */
  function RunLog(log: UploadLog, run: Run): UploadLog
  {
    match run
    case Aborted(_, error) => Fail(log, error)
    case Finished(processed, _) => Complete(log, processed.summary)
  }

  /** How the outcome of a run decides its final log entry and its last event. */
  lemma RunOutcomeEffect(log: UploadLog, run: Run)
    ensures RunOutcome(run).Success? ==>
      && RunLog(log, run) == Complete(log, RunOutcome(run).summary)
      && RunEvents(run) == StepEvents(run) + [UploadComplete(RunOutcome(run).summary)]
    ensures RunOutcome(run).Thrown? ==>
      && RunLog(log, run) == Fail(log, RunOutcome(run).message)
      && RunEvents(run) == StepEvents(run) + [UploadError(RunOutcome(run).message)]
  {
  }

  predicate IsProgress(e: Event)
  {
    e.UploadProgress?
  }

  /** The unit progress trace holds no upload_progress event. */
  lemma {:induction false} TraceHasNoSteps(owners: seq<string>, total: nat)
    ensures Filter(ProgressTrace(owners, total), IsProgress) == []
  {
    if owners != [] {
      var init := owners[..|owners| - 1];
      TraceHasNoSteps(init, total);
      var tail := if |owners| % 5 == 0 then [UnitProgress(|owners|, total, owners[|owners| - 1])] else [];
      FilterConcat(ProgressTrace(init, total), tail, IsProgress);
      if tail != [] {
        assert Filter(tail, IsProgress) == Filter([], IsProgress) by {
          assert tail[..0] == [];
        }
      }
    }
  }

  /** ProgressSteps(n) runs through the steps 1..n in order, each out of 6. */
  lemma {:induction false} ProgressStepsAre(n: nat)
    ensures |ProgressSteps(n)| == n
    ensures forall i :: 0 <= i < n ==>
      ProgressSteps(n)[i].UploadProgress? && ProgressSteps(n)[i].step == i + 1 && ProgressSteps(n)[i].total == TotalSteps
  {
    if n > 0 {
      ProgressStepsAre(n - 1);
    }
  }

  function LastStep(run: Run): nat
  {
    match run
    case Aborted(step, _) => step
    case Finished(_, _) => TotalSteps
  }

  /** The upload_progress events of an upload are steps 1, 2, ... in order, each out of 6,
      through step 6 when it finishes and through the step it failed after otherwise; the last
      event is upload_error exactly when the upload failed. */
  lemma RunProgress(run: Run)
    ensures Filter(RunEvents(run), IsProgress) == ProgressSteps(LastStep(run))
    ensures run.Aborted? <==> RunEvents(run)[|RunEvents(run)| - 1].UploadError?
  {
    var final := [FinalEvent(run)];
    assert Filter(final, IsProgress) == [] by {
      assert final[..0] == [];
    }
    FilterConcat(StepEvents(run), final, IsProgress);
    if run.Aborted? {
      AbortedProgress(run.step);
    } else {
      FinishedProgress(run.processed);
    }
  }

  lemma AbortedProgress(step: nat)
    ensures Filter(ProgressSteps(step), IsProgress) == ProgressSteps(step)
  {
    ProgressStepsAre(step);
    FilterAll(ProgressSteps(step), IsProgress);
  }

  lemma FinishedProgress(processed: ProcessedData)
    ensures Filter(StepEvents(Finished(processed, [])), IsProgress) == ProgressSteps(6)
  {
    TraceHasNoSteps(UnitOwners(processed.projects), processed.summary.unitsProcessed);
    StepsAroundTrace(ProgressTrace(UnitOwners(processed.projects), processed.summary.unitsProcessed));
  }

  lemma StepsAroundTrace(trace: seq<Event>)
    requires Filter(trace, IsProgress) == []
    ensures Filter(ProgressSteps(4) + trace + [Progress(5), Progress(6)], IsProgress) == ProgressSteps(6)
  {
    AbortedProgress(4);
    LastProgressSteps();
    ProgressStepsAre(6);
    var last := ProgressSteps(6)[4..];
    FilterAll(last, IsProgress);
    KeepAround(ProgressSteps(4), trace, last, IsProgress);
  }

  lemma LastProgressSteps()
    ensures ProgressSteps(6) == ProgressSteps(4) + [Progress(5), Progress(6)]
    ensures ProgressSteps(6)[4..] == [Progress(5), Progress(6)]
  {
    assert ProgressSteps(5) == ProgressSteps(4) + [Progress(5)];
  }

  /** An upload fails after step 2, with every critical error message joined by ", ", exactly
      when the workbook has sheets and validation reports a critical error; it fails after step
      1 exactly when the workbook has no sheet; otherwise it finishes. */
  lemma RunCases(workbook: seq<Sheet>, developerId: int, timestamp: string)
    ensures var run := UploadRun(workbook, developerId, timestamp);
      && (run.Aborted? ==> run.step in {1, 2})
      && (run == Aborted(1, NoSheetError) <==> workbook == [])
      && (workbook != [] ==>
           var errors := CriticalErrors(AllUnits(ExtractAll(workbook, DetectFileStructure(SheetNames(workbook)).value)));
           && (errors != [] ==> run == Aborted(2, "Validation failed: " + Join(ErrorMessages(errors), ", ")))
           && (errors == [] <==> run.Finished?))
  {
  }

  /** A finished upload reports one project per sheet with data and every unit of those
      sheets, and emits one unit_progress event per five units. */
  lemma FinishedSummary(workbook: seq<Sheet>, developerId: int, timestamp: string)
    requires UploadRun(workbook, developerId, timestamp).Finished?
    ensures var run := UploadRun(workbook, developerId, timestamp);
      var extracted := ExtractAll(workbook, DetectFileStructure(SheetNames(workbook)).value);
      var summary := run.processed.summary;
      && summary.projectsProcessed == |Filter(workbook, HasData)| == |run.processed.projects|
      && summary.unitsProcessed == |AllUnits(extracted)|
      && summary.timestamp == timestamp
      && |ProgressTrace(UnitOwners(run.processed.projects), summary.unitsProcessed)| == summary.unitsProcessed / 5
  {
    var structure := DetectFileStructure(SheetNames(workbook)).value;
    var extracted := ExtractAll(workbook, structure);
    ExtractAllSheets(workbook, structure);
    TotalUnitsCountsAll(extracted);
    ExtractedHasProjectInfos(workbook);
    UnitOwnersCount(extracted);
    var run := UploadRun(workbook, developerId, timestamp);
    ProgressTraceClosedForm(UnitOwners(run.processed.projects), run.processed.summary.unitsProcessed);
  }

  /** The log of an upload ends FAILED with the error message when the upload fails, and
      COMPLETED with the summary's counts when it finishes; its other fields stay as created. */
  lemma RunLogState(log: UploadLog, run: Run)
    ensures var r := RunLog(log, run);
      && r.id == log.id && r.developerId == log.developerId && r.filename == log.filename
      && r.fileSize == log.fileSize && r.createdAt == log.createdAt
      && (r.status == Failed <==> run.Aborted?)
      && (run.Aborted? ==> r.errorDetails == Some(run.error) && r.summary == log.summary)
      && (r.status == Completed <==> run.Finished?)
      && (run.Finished? ==>
           && r.summary == Some(run.processed.summary)
           && r.unitsProcessed == Some(run.processed.summary.unitsProcessed)
           && r.projectsProcessed == Some(run.processed.summary.projectsProcessed)
           && r.errorDetails == log.errorDetails)
  {
  }

  /** The service: a mock database of upload logs. */
  class ExcelUploadService {
    var uploadLogs: seq<UploadLog>

    ghost predicate Valid()
      reads this
    {
      IdsAreSequential(uploadLogs)
    }

    constructor ()
      ensures Valid() && uploadLogs == []
    {
      uploadLogs := [];
    }

    /** createUploadLog: append a PROCESSING log whose id is the ledger length plus 1. */
    method CreateUploadLog(file: UploadFile, developerId: int, createdAt: string) returns (log: UploadLog)
      requires Valid()
      modifies this
      ensures Valid()
      ensures log == NewLog(|old(uploadLogs)|, file, developerId, createdAt)
      ensures uploadLogs == old(uploadLogs) + [log]
    {
      log := NewLog(|uploadLogs|, file, developerId, createdAt);
      uploadLogs := uploadLogs + [log];
    }

    /** The position of the first log with the id, by a scan as find does it. */
    method Find(logId: int) returns (index: Option<nat>)
      ensures index == FindLog(uploadLogs, logId)
    {
      var i := 0;
      while i < |uploadLogs| && uploadLogs[i].id != logId
        invariant 0 <= i <= |uploadLogs|
        invariant forall j :: 0 <= j < i ==> uploadLogs[j].id != logId
      {
        i := i + 1;
      }
      if i < |uploadLogs| {
        index := Some(i);
        var r := FindLog(uploadLogs, logId);
        assert r.Some? && r.value == i by {
          if r.None? {
          } else if r.value < i {
          } else if r.value > i {
          }
        }
      } else {
        index := None;
      }
    }

    method CompleteUploadLog(logId: int, summary: Summary)
      requires Valid()
      modifies this
      ensures Valid()
      ensures uploadLogs == CompleteLog(old(uploadLogs), logId, summary)
    {
      var index := Find(logId);
      if index.Some? {
        var log := uploadLogs[index.value];
        uploadLogs := uploadLogs[index.value := Complete(log, summary)];
      }
    }

    method FailUploadLog(logId: int, errorMessage: string)
      requires Valid()
      modifies this
      ensures Valid()
      ensures uploadLogs == FailLog(old(uploadLogs), logId, errorMessage)
    {
      var index := Find(logId);
      if index.Some? {
        var log := uploadLogs[index.value];
        uploadLogs := uploadLogs[index.value := Fail(log, errorMessage)];
      }
    }

    /** getUploadHistory: exactly the developer's logs, in insertion order (so with
        increasing ids). */
    function GetUploadHistory(developerId: int): (history: seq<UploadLog>)
      reads this
      ensures forall l :: l in history <==> l in uploadLogs && l.developerId == developerId
      ensures IdsAreSequential(uploadLogs) ==> forall k, l :: 0 <= k < l < |history| ==> history[k].id < history[l].id
    {
      HistoryContents(uploadLogs, developerId);
      Filter(uploadLogs, OwnedBy(developerId))
    }

    /** The steps of processUpload inside its try block, up to the log update: the outcome
        and the events emitted so far. */
    static method RunSteps(developerId: int, workbook: seq<Sheet>, connected: bool, timestamp: string)
      returns (outcome: UploadOutcome, events: seq<Event>)
      ensures var run := UploadRun(workbook, developerId, timestamp);
        outcome == RunOutcome(run) && events == if connected then StepEvents(run) else []
    {
      ghost var run := UploadRun(workbook, developerId, timestamp);
      events := [];
      if connected { events := events + [Progress(1)]; }
      var fileStructure := DetectFileStructure(SheetNames(workbook));
      if fileStructure.None? {
        assert run == Aborted(1, NoSheetError);
        FirstProgressSteps();
        outcome := Thrown(NoSheetError);
        return;
      }
      if connected { events := events + [Progress(2)]; }
      var extractedData := ExtractData(workbook, fileStructure.value);
      var validationResults := ValidateData(extractedData);
      if |validationResults.criticalErrors| > 0 {
        assert run == Aborted(2, ValidationFailure(validationResults.criticalErrors));
        FirstProgressSteps();
        outcome := Thrown(ValidationFailure(validationResults.criticalErrors));
        return;
      }
      if connected { events := events + [Progress(3)]; }
      ExtractedHasProjectInfos(workbook);
      var processedData := ProcessData(extractedData, developerId, timestamp);
      assert run == Finished(processedData, validationResults.warnings);
      if connected { events := events + [Progress(4)]; }
      FirstProgressSteps();
      var unitEvents := SimulateDatabase(processedData, connected);
      events := events + unitEvents;
      if connected { events := events + [Progress(5), Progress(6)]; }
      outcome := Success(processedData.summary, validationResults.warnings);
    }

    /** processUpload, with the workbook read from the file given as `workbook`, the socket as
        `connected` and the two clock readings as parameters. The events are those emitted on
        the socket, in order. */
    method ProcessUpload(file: UploadFile, developerId: int, workbook: seq<Sheet>, connected: bool,
                         createdAt: string, timestamp: string)
      returns (outcome: UploadOutcome, events: seq<Event>)
      requires Valid()
      modifies this
      ensures Valid()
      ensures var run := UploadRun(workbook, developerId, timestamp);
        && outcome == RunOutcome(run)
        && events == (if connected then RunEvents(run) else [])
        && uploadLogs == old(uploadLogs) + [RunLog(NewLog(|old(uploadLogs)|, file, developerId, createdAt), run)]
    {
      ghost var run := UploadRun(workbook, developerId, timestamp);
      ghost var before := uploadLogs;
      var uploadLog := CreateUploadLog(file, developerId, createdAt);
      FindLogSequential(uploadLogs, uploadLog.id);
      outcome, events := RunSteps(developerId, workbook, connected, timestamp);
      RunOutcomeEffect(uploadLog, run);
      NewestLogUpdates(before, uploadLog, if outcome.Success? then outcome.summary else Summary(0, 0, ""),
        if outcome.Thrown? then outcome.message else "");
      match outcome {
        case Success(summary, _) =>
          CompleteUploadLog(uploadLog.id, summary);
          if connected { events := events + [UploadComplete(summary)]; }
        case Thrown(message) =>
          FailUploadLog(uploadLog.id, message);
          if connected { events := events + [UploadError(message)]; }
      }
    }
  }
}
