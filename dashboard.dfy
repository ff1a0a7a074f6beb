/** The dashboard's import-and-analysis workflow. One click starts an
    import, polls its status every two seconds until the backend reports it
    finished, then detects cities and calculates coverage, moving the step
    indicator through importing, detecting, calculating and completed. A
    separate background poller follows an import that was already running
    when the page loaded. The poll responses are given as a sequence, in
    the order the backend would answer. */
module Dashboard {
  import opened Wrappers
  import opened JsNumbers
  import opened Backend

  datatype Step = Idle | Importing | Detecting | Calculating | Completed

  function Rank(s: Step): nat {
    match s
    case Idle => 0
    case Importing => 1
    case Detecting => 2
    case Calculating => 3
    case Completed => 4
  }

  /** The steps a run sets move forward: every step but the last is a
      stage of the workflow, each later than the one before, and only the
      last may fall back to `idle`. */
  predicate MovesForward(steps: seq<Step>) {
    (forall i :: 0 <= i < |steps| - 1 ==> steps[i] != Idle)
    && forall i, j :: 0 <= i < j < |steps| && steps[j] != Idle ==> Rank(steps[i]) < Rank(steps[j])
  }

  /** The messages `processingProgress` is set to. */
  datatype Progress =
    | Blank
    | StartingImport
    | ImportFinished(imported: int)
    | ImportingPage(page: int, imported: int)
    | Failure(message: string)
    | Analyzing
    | CitiesDetected(count: nat)
    | CalculatingCoverage
    | CoverageCalculated
    | AllDone
    | ImportInProgress
    | PollCompleted
    | PollError

  const NotCompletedError: string := "Import did not complete successfully"

  /** The text the page shows for each message. */
  function Text(p: Progress): string {
    match p
    case Blank => ""
    case StartingImport => "Starting import of your Strava activities..."
    case ImportFinished(n) => "Import completed! Imported " + IntToString(n) + " activities."
    case ImportingPage(page, n) =>
      "Importing activities... Page " + IntToString(page) + ", " + IntToString(n) + " activities imported so far."
    case Failure(message) => "Error: " + message
    case Analyzing => "Analyzing your activities to detect cities..."
    case CitiesDetected(k) => "City detection completed! Found " + NatToString(k) + " cities with activities."
    case CalculatingCoverage => "Calculating coverage for each city..."
    case CoverageCalculated => "Coverage calculation completed!"
    case AllDone => "All done! Your Strava coverage has been calculated."
    case ImportInProgress => "Import in progress..."
    case PollCompleted => "Import completed successfully!"
    case PollError => "Error occurred during import polling"
  }

  /** The message one status poll of the workflow sets. */
  function PollMessage(st: ImportStatus): (p: Progress)
    ensures p.ImportFinished? <==> !st.inProgress
    ensures p.ImportingPage? <==> st.inProgress
    ensures p.ImportFinished? ==> p.imported == st.importedCount
    ensures p.ImportingPage? ==> p.page == st.currentPage && p.imported == st.importedCount
  {
    if !st.inProgress then ImportFinished(st.importedCount) else ImportingPage(st.currentPage, st.importedCount)
  }

  /** The progress texts a run of polls sets; a failed poll sets none. */
  function PollMessages(statuses: seq<Result<ImportStatus>>): (r: seq<Progress>)
    ensures |r| <= |statuses|
  {
    if |statuses| == 0 then []
    else
      var last := statuses[|statuses| - 1];
      PollMessages(statuses[..|statuses| - 1]) + (if last.Ok? then [PollMessage(last.value)] else [])
  }

  /** `n` status requests. */
  function StatusCalls(userId: int, n: nat): (r: seq<ApiCall>)
    ensures |r| == n && forall i :: 0 <= i < n ==> r[i] == GetImportStatus(userId)
  {
    if n == 0 then [] else StatusCalls(userId, n - 1) + [GetImportStatus(userId)]
  }

  predicate InProgressOk(r: Result<ImportStatus>) {
    r.Ok? && r.value.inProgress
  }

  /** How the workflow's poll loop ends on the given responses: after `polls`
      requests with a finished import or a failed request, or not at all
      while every response says the import is still running. */
  datatype PollOutcome = ImportDone(polls: nat, status: ImportStatus) | PollFailed(polls: nat) | StillImporting

  function PollImport(statuses: seq<Result<ImportStatus>>): (o: PollOutcome)
    ensures o.StillImporting? <==> forall j :: 0 <= j < |statuses| ==> InProgressOk(statuses[j])
    ensures o.ImportDone? ==>
              1 <= o.polls <= |statuses| && statuses[o.polls - 1] == Ok(o.status) && !o.status.inProgress
              && forall j :: 0 <= j < o.polls - 1 ==> InProgressOk(statuses[j])
    ensures o.PollFailed? ==>
              1 <= o.polls <= |statuses| && statuses[o.polls - 1].Err?
              && forall j :: 0 <= j < o.polls - 1 ==> InProgressOk(statuses[j])
  {
    if |statuses| == 0 then StillImporting
    else if statuses[0].Err? then PollFailed(1)
    else if !statuses[0].value.inProgress then ImportDone(1, statuses[0].value)
    else match PollImport(statuses[1..])
      case StillImporting => StillImporting
      case ImportDone(n, st) => ImportDone(n + 1, st)
      case PollFailed(n) => PollFailed(n + 1)
  }

  /** The outcome is fixed by the first response that is not a running import. */
  lemma PollImportDetermined(statuses: seq<Result<ImportStatus>>, n: nat)
    requires 1 <= n <= |statuses| && !InProgressOk(statuses[n - 1])
    requires forall j :: 0 <= j < n - 1 ==> InProgressOk(statuses[j])
    ensures statuses[n - 1].Err? ==> PollImport(statuses) == PollFailed(n)
    ensures statuses[n - 1].Ok? ==> PollImport(statuses) == ImportDone(n, statuses[n - 1].value)
  {
  }

  lemma PollMessagesStep(statuses: seq<Result<ImportStatus>>, k: nat)
    requires k < |statuses|
    ensures PollMessages(statuses[..k + 1]) == PollMessages(statuses[..k])
              + (if statuses[k].Ok? then [PollMessage(statuses[k].value)] else [])
  {
    assert statuses[..k + 1][..k] == statuses[..k];
  }

  /** The last progress text of a finished poll loop reports the import count. */
  lemma {:induction false} PollMessagesEndWithCompletion(statuses: seq<Result<ImportStatus>>)
    requires PollImport(statuses).ImportDone?
    ensures var o := PollImport(statuses);
      var m := PollMessages(statuses[..o.polls]);
      |m| > 0 && m[|m| - 1] == ImportFinished(o.status.importedCount)
  {
    var o := PollImport(statuses);
    var p := statuses[..o.polls];
    assert p[..|p| - 1] == statuses[..o.polls - 1];
    assert p[|p| - 1] == Ok(o.status);
  }

  /** `detectResponse.data.cities?.length || 0` */
  function CitiesFound(d: DetectionResult): (n: nat)
    ensures d.cities.None? ==> n == 0
    ensures d.cities.Some? ==> n == |d.cities.value|
  {
    if d.cities.Some? then |d.cities.value| else 0
  }


  /** The requests the workflow makes once the import has finished. */
  function AnalysisCalls(id: int, detect: Result<DetectionResult>, calculate: Result<Unit>): (r: seq<ApiCall>)
    ensures 1 <= |r| && r[0] == AutoDetect(id)
    ensures |r| == 1 <==> detect.Err?
    ensures detect.Ok? ==> r[1] == CalculateAll(id)
    ensures detect.Ok? && calculate.Ok? ==> r[2..] == [GetSummary(id), GetImportStatus(id)]
  {
    if detect.Err? then [AutoDetect(id)]
    else if calculate.Err? then [AutoDetect(id), CalculateAll(id)]
    else [AutoDetect(id), CalculateAll(id), GetSummary(id), GetImportStatus(id)]
  }

  /** The steps the workflow sets once the import has finished. */
  function AnalysisSteps(detect: Result<DetectionResult>, calculate: Result<Unit>): (r: seq<Step>)
    ensures 2 <= |r| && r[0] == Detecting
    ensures r[|r| - 1] == Completed <==> detect.Ok? && calculate.Ok?
    ensures r[|r| - 1] == Idle <==> detect.Err? || calculate.Err?
  {
    if detect.Err? then [Detecting, Idle]
    else if calculate.Err? then [Detecting, Calculating, Idle]
    else [Detecting, Calculating, Completed]
  }

  /** The messages the workflow sets once the import has finished; a failed
      request's message is shown after `Error: `. */
  function AnalysisLog(detect: Result<DetectionResult>, calculate: Result<Unit>): (r: seq<Progress>)
    ensures 2 <= |r| && r[0] == Analyzing
    ensures detect.Err? ==> r[|r| - 1] == Failure(detect.message)
    ensures detect.Ok? ==> r[1] == CitiesDetected(CitiesFound(detect.value))
    ensures detect.Ok? && calculate.Err? ==> r[|r| - 1] == Failure(calculate.message)
    ensures detect.Ok? && calculate.Ok? ==> r[|r| - 1] == AllDone
  {
    if detect.Err? then [Analyzing, Failure(detect.message)]
    else if calculate.Err? then [Analyzing, CitiesDetected(CitiesFound(detect.value)), CalculatingCoverage,
                                 Failure(calculate.message)]
    else [Analyzing, CitiesDetected(CitiesFound(detect.value)), CalculatingCoverage, CoverageCalculated, AllDone]
  }

  /** Whatever the responses, the steps of one run move forward. */
  lemma WorkflowMovesForward(detect: Result<DetectionResult>, calculate: Result<Unit>)
    ensures MovesForward([Importing])
    ensures MovesForward([Importing, Idle])
    ensures MovesForward([Importing] + AnalysisSteps(detect, calculate))
  {
    var r := [Importing] + AnalysisSteps(detect, calculate);
    assert forall i :: 0 <= i < |r| && r[i] != Idle ==> Rank(r[i]) == i + 1;
  }

  class DashboardPage {
    const userId: Option<int>
    var importStatus: Option<ImportStatus>
    var coverageSummary: Option<CoverageSummary>
    var isProcessing: bool
    /** Every value `currentStep` / `processingProgress` was set to, oldest first. */
    var steps: seq<Step>
    var progressLog: seq<Progress>
    /** Background pollers whose interval is still running. */
    var activePollers: nat
    var calls: seq<ApiCall>

    constructor(user: Option<int>)
      ensures userId == user && importStatus == None && coverageSummary == None
      ensures !isProcessing && steps == [] && progressLog == [] && activePollers == 0 && calls == []
      ensures CurrentStep() == Idle && ProcessingProgress() == ""
    {
      userId := user;
      importStatus := None;
      coverageSummary := None;
      isProcessing := false;
      steps := [];
      progressLog := [];
      activePollers := 0;
      calls := [];
    }

    /** `currentStep`: the last value set, initially `idle`. */
    function CurrentStep(): Step
      reads this
    {
      if |steps| == 0 then Idle else steps[|steps| - 1]
    }

    /** `processingProgress`: the text of the last message set, initially empty. */
    function ProcessingProgress(): string
      reads this
    {
      if |progressLog| == 0 then "" else Text(progressLog[|progressLog| - 1])
    }

    /** `loadCoverageSummary`: a failed request clears the summary. */
    method LoadCoverageSummary(response: Result<CoverageSummary>)
      modifies this
      ensures userId.None? ==> coverageSummary == old(coverageSummary) && calls == old(calls)
      ensures userId.Some? ==>
                calls == old(calls) + [GetSummary(userId.value)]
                && coverageSummary == (if response.Ok? then Some(response.value) else None)
      ensures importStatus == old(importStatus) && isProcessing == old(isProcessing)
      ensures steps == old(steps) && progressLog == old(progressLog) && activePollers == old(activePollers)
    {
      if userId.None? {
        return;
      }
      calls := calls + [GetSummary(userId.value)];
      coverageSummary := if response.Ok? then Some(response.value) else None;
    }

    /** `loadImportStatus`: a running import found while nothing is being
        processed starts the background poller. */
    method LoadImportStatus(response: Result<ImportStatus>)
      modifies this
      ensures userId.None? ==>
                importStatus == old(importStatus) && calls == old(calls) && activePollers == old(activePollers)
                && steps == old(steps) && progressLog == old(progressLog) && isProcessing == old(isProcessing)
      ensures userId.Some? ==>
                calls == old(calls) + [GetImportStatus(userId.value)]
                && importStatus == (if response.Ok? then Some(response.value) else None)
      ensures userId.Some? && InProgressOk(response) && !old(isProcessing) ==>
                isProcessing && steps == old(steps) + [Importing]
                && progressLog == old(progressLog) + [ImportInProgress]
                && activePollers == old(activePollers) + 1
      ensures userId.Some? && !(InProgressOk(response) && !old(isProcessing)) ==>
                isProcessing == old(isProcessing) && steps == old(steps)
                && progressLog == old(progressLog) && activePollers == old(activePollers)
      ensures coverageSummary == old(coverageSummary)
    {
      if userId.None? {
        return;
      }
      calls := calls + [GetImportStatus(userId.value)];
      if response.Ok? {
        importStatus := Some(response.value);
        if response.value.inProgress && !isProcessing {
          isProcessing := true;
          steps := steps + [Importing];
          progressLog := progressLog + [ImportInProgress];
          activePollers := activePollers + 1;
        }
      } else {
        importStatus := None;
      }
    }

    /** One tick of a background poller; `summary` answers the summary
        reload a finished import triggers. */
    method PollTick(response: Result<ImportStatus>, summary: Result<CoverageSummary>)
      requires activePollers > 0
      modifies this
      ensures userId.None? ==>
                activePollers == old(activePollers) - 1 && calls == old(calls) && steps == old(steps)
                && progressLog == old(progressLog) && isProcessing == old(isProcessing)
                && importStatus == old(importStatus) && coverageSummary == old(coverageSummary)
      ensures userId.Some? && InProgressOk(response) ==>
                calls == old(calls) + [GetImportStatus(userId.value)] && importStatus == Some(response.value)
                && activePollers == old(activePollers) && steps == old(steps)
                && progressLog == old(progressLog) && isProcessing == old(isProcessing)
                && coverageSummary == old(coverageSummary)
      ensures userId.Some? && response.Ok? && !response.value.inProgress ==>
                calls == old(calls) + [GetImportStatus(userId.value), GetSummary(userId.value)]
                && importStatus == Some(response.value)
                && activePollers == old(activePollers) - 1 && !isProcessing
                && steps == old(steps) + [Completed] && progressLog == old(progressLog) + [PollCompleted]
                && coverageSummary == (if summary.Ok? then Some(summary.value) else None)
      ensures userId.Some? && response.Err? ==>
                calls == old(calls) + [GetImportStatus(userId.value)] && importStatus == old(importStatus)
                && activePollers == old(activePollers) - 1 && !isProcessing
                && steps == old(steps) + [Idle] && progressLog == old(progressLog) + [PollError]
                && coverageSummary == old(coverageSummary)
    {
      if userId.None? {
        activePollers := activePollers - 1;
        return;
      }
      calls := calls + [GetImportStatus(userId.value)];
      if response.Ok? {
        importStatus := Some(response.value);
        if !response.value.inProgress {
          activePollers := activePollers - 1;
          isProcessing := false;
          steps := steps + [Completed];
          progressLog := progressLog + [PollCompleted];
          LoadCoverageSummary(summary);
        }
      } else {
        activePollers := activePollers - 1;
        isProcessing := false;
        steps := steps + [Idle];
        progressLog := progressLog + [PollError];
      }
    }

    /** The workflow's poll loop: one status request per response until a
        response reports the import finished or a request fails; with every
        response still running it is still polling when they run out. */
    method PollUntilImported(id: int, statuses: seq<Result<ImportStatus>>) returns (polls: nat, stopped: bool)
      modifies this`calls, this`progressLog
      ensures polls <= |statuses|
      ensures forall j :: 0 <= j < polls - 1 ==> InProgressOk(statuses[j])
      ensures stopped ==> polls > 0 && !InProgressOk(statuses[polls - 1])
      ensures !stopped ==> polls == |statuses| && (polls > 0 ==> InProgressOk(statuses[polls - 1]))
      ensures calls == old(calls) + StatusCalls(id, polls)
      ensures progressLog == old(progressLog) + PollMessages(statuses[..polls])
    {
      stopped := false;
      polls := 0;
      while !stopped && polls < |statuses|
        invariant polls <= |statuses|
        invariant calls == old(calls) + StatusCalls(id, polls)
        invariant progressLog == old(progressLog) + PollMessages(statuses[..polls])
        invariant forall j :: 0 <= j < polls - 1 ==> InProgressOk(statuses[j])
        invariant polls > 0 && !stopped ==> InProgressOk(statuses[polls - 1])
        invariant stopped ==> polls > 0 && !InProgressOk(statuses[polls - 1])
        decreases |statuses| - polls
      {
        var response := statuses[polls];
        assert StatusCalls(id, polls + 1) == StatusCalls(id, polls) + [GetImportStatus(id)];
        calls := calls + [GetImportStatus(id)];
        PollMessagesStep(statuses, polls);
        if response.Ok? {
          progressLog := progressLog + [PollMessage(response.value)];
        }
        stopped := !InProgressOk(response);
        polls := polls + 1;
      }
    }

    /** The workflow after a finished import: city detection, coverage
        calculation and the two reloads, each failure ending the run. */
    method DetectAndCalculate(
      id: int,
      detect: Result<DetectionResult>,
      calculate: Result<Unit>,
      summary: Result<CoverageSummary>,
      reload: Result<ImportStatus>)
      requires userId == Some(id) && isProcessing
      modifies this
      ensures calls == old(calls) + AnalysisCalls(id, detect, calculate)
      ensures steps == old(steps) + AnalysisSteps(detect, calculate)
      ensures progressLog == old(progressLog) + AnalysisLog(detect, calculate)
      ensures !isProcessing && activePollers == old(activePollers)
      ensures detect.Err? || calculate.Err? ==>
                importStatus == old(importStatus) && coverageSummary == old(coverageSummary)
      ensures detect.Ok? && calculate.Ok? ==>
                coverageSummary == (if summary.Ok? then Some(summary.value) else None)
                && importStatus == (if reload.Ok? then Some(reload.value) else None)
    {
      if detect.Err? {
        calls := calls + [AutoDetect(id)];
        steps := steps + [Detecting, Idle];
        progressLog := progressLog + [Analyzing, Failure(detect.message)];
        isProcessing := false;
      } else if calculate.Err? {
        calls := calls + [AutoDetect(id), CalculateAll(id)];
        steps := steps + [Detecting, Calculating, Idle];
        progressLog := progressLog + [Analyzing, CitiesDetected(CitiesFound(detect.value)), CalculatingCoverage,
                                      Failure(calculate.message)];
        isProcessing := false;
      } else {
        calls := calls + [AutoDetect(id), CalculateAll(id)];
        steps := steps + [Detecting, Calculating];
        progressLog := progressLog + [Analyzing, CitiesDetected(CitiesFound(detect.value)), CalculatingCoverage,
                                      CoverageCalculated];
        FinishRun(id, summary, reload);
        assert calls == old(calls) + [AutoDetect(id), CalculateAll(id), GetSummary(id), GetImportStatus(id)];
        assert steps == old(steps) + [Detecting, Calculating, Completed];
        assert progressLog == old(progressLog) + [Analyzing, CitiesDetected(CitiesFound(detect.value)),
                                                  CalculatingCoverage, CoverageCalculated, AllDone];
      }
    }

    /** The end of a successful run: both reloads, then `completed`. The
        status reload sees the run still processing, so it never starts the
        background poller. */
    method FinishRun(id: int, summary: Result<CoverageSummary>, reload: Result<ImportStatus>)
      requires userId == Some(id) && isProcessing
      modifies this
      ensures calls == old(calls) + [GetSummary(id), GetImportStatus(id)]
      ensures steps == old(steps) + [Completed] && progressLog == old(progressLog) + [AllDone]
      ensures !isProcessing && activePollers == old(activePollers)
      ensures coverageSummary == (if summary.Ok? then Some(summary.value) else None)
      ensures importStatus == (if reload.Ok? then Some(reload.value) else None)
    {
      LoadCoverageSummary(summary);
      LoadImportStatus(reload);
      steps := steps + [Completed];
      progressLog := progressLog + [AllDone];
      isProcessing := false;
    }

    /** `startAutomatedWorkflow`. `start`, `detect` and `calculate` answer the
        import, detection and calculation requests; `statuses` the status
        polls in order; `summary` and `reload` the two reloads at the end. */
    method StartAutomatedWorkflow(
      start: Result<Unit>,
      statuses: seq<Result<ImportStatus>>,
      detect: Result<DetectionResult>,
      calculate: Result<Unit>,
      summary: Result<CoverageSummary>,
      reload: Result<ImportStatus>)
      modifies this
      ensures activePollers == old(activePollers)
      ensures userId.None? ==>
                calls == old(calls) && steps == old(steps) && progressLog == old(progressLog)
                && isProcessing == old(isProcessing) && importStatus == old(importStatus)
                && coverageSummary == old(coverageSummary)
      ensures userId.Some? && start.Err? ==>
                calls == old(calls) + [StartImport(userId.value)]
                && steps == old(steps) + [Importing, Idle]
                && progressLog == old(progressLog) + [StartingImport, Failure(start.message)]
                && !isProcessing
                && importStatus == old(importStatus) && coverageSummary == old(coverageSummary)
      ensures userId.Some? && start.Ok? && PollImport(statuses).StillImporting? ==>
                calls == old(calls) + [StartImport(userId.value)] + StatusCalls(userId.value, |statuses|)
                && steps == old(steps) + [Importing]
                && progressLog == old(progressLog) + [StartingImport] + PollMessages(statuses)
                && isProcessing
                && importStatus == old(importStatus) && coverageSummary == old(coverageSummary)
      ensures userId.Some? && start.Ok? && PollImport(statuses).PollFailed? ==>
                var n := PollImport(statuses).polls;
                calls == old(calls) + [StartImport(userId.value)] + StatusCalls(userId.value, n)
                && steps == old(steps) + [Importing, Idle]
                && progressLog == old(progressLog) + [StartingImport] + PollMessages(statuses[..n])
                                  + [Failure(NotCompletedError)]
                && !isProcessing
                && importStatus == old(importStatus) && coverageSummary == old(coverageSummary)
      ensures userId.Some? && start.Ok? && PollImport(statuses).ImportDone? ==>
                var n := PollImport(statuses).polls;
                calls == old(calls) + [StartImport(userId.value)] + StatusCalls(userId.value, n)
                         + AnalysisCalls(userId.value, detect, calculate)
                && steps == old(steps) + [Importing] + AnalysisSteps(detect, calculate)
                && progressLog == old(progressLog) + [StartingImport] + PollMessages(statuses[..n])
                                  + AnalysisLog(detect, calculate)
                && !isProcessing
      ensures userId.Some? && start.Ok? && PollImport(statuses).ImportDone? && (detect.Err? || calculate.Err?) ==>
                importStatus == old(importStatus) && coverageSummary == old(coverageSummary)
      ensures userId.Some? && start.Ok? && PollImport(statuses).ImportDone? && detect.Ok? && calculate.Ok? ==>
                coverageSummary == (if summary.Ok? then Some(summary.value) else None)
                && importStatus == (if reload.Ok? then Some(reload.value) else None)
    {
      if userId.None? {
        return;
      }
      var id := userId.value;
      isProcessing := true;
      steps := steps + [Importing];
      progressLog := progressLog + [StartingImport];
      calls := calls + [StartImport(id)];
      if start.Err? {
        progressLog := progressLog + [Failure(start.message)];
        steps := steps + [Idle];
        assert steps == old(steps) + [Importing, Idle];
        isProcessing := false;
        return;
      }
      var polls, stopped := PollUntilImported(id, statuses);
      if !stopped {
        assert statuses[..polls] == statuses;
        return;
      }
      PollImportDetermined(statuses, polls);
      var outcome := PollImport(statuses);
      if outcome.PollFailed? {
        progressLog := progressLog + [Failure(NotCompletedError)];
        steps := steps + [Idle];
        isProcessing := false;
        return;
      }
      DetectAndCalculate(id, detect, calculate, summary, reload);
    }

    /** The "Start New Analysis" button, shown only once the step is completed. */
    method StartNewAnalysis()
      requires CurrentStep() == Completed
      modifies this
      ensures steps == old(steps) + [Idle] && progressLog == old(progressLog) + [Blank]
      ensures CurrentStep() == Idle && ProcessingProgress() == ""
      ensures calls == old(calls) && isProcessing == old(isProcessing) && activePollers == old(activePollers)
      ensures importStatus == old(importStatus) && coverageSummary == old(coverageSummary)
    {
      steps := steps + [Idle];
      progressLog := progressLog + [Blank];
    }
  }
}
