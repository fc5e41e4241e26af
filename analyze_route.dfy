/** app/api/analyze/route.ts: POST starts the analysis of a stored file under the id
    "analysis-<fileId>", GET hands out its report once it is complete. The module-level
    `analysisResults` map and the progress store that `updateProgress` writes are the
    fields of an `AnalyzeRoute`. The background task POST starts is run to its end inside
    the call; its waits are left out, and the clock reading, the stored keys, the upstream
    exchange and `JSON.parse` are the parameters `analyzeFile` takes in the model. */
module AnalyzeRoute {
  import opened Wrappers
  import opened Strings
  import opened KeyStorage
  import opened FileStorage
  import opened AiAnalysis

  const ANALYSIS_PREFIX := "analysis-"

  const MISSING_INPUT := "Missing file ID or metadata"
  const START_FAILED := "Failed to start analysis"
  const STARTED_MESSAGE := "Analysis started successfully"
  const MISSING_ID := "Missing analysis ID"
  const NOT_FOUND := "Analysis not found or not completed"

  /** One entry of the progress store. */
  datatype Progress = Progress(stage: nat, message: string, completed: bool)

  const UPLOADING := Progress(1, "Uploading file...", false)
  const INITIALIZING := Progress(2, "Initializing analysis engine...", false)
  const SIGNATURES := Progress(3, "Analyzing media signatures...", false)
  const CROSS_REFERENCING := Progress(4, "Cross-referencing consistency markers...", false)
  const COMPILING := Progress(5, "Compiling final report...", false)
  const COMPLETE := Progress(6, "Analysis complete", true)
  const FAILED := Progress(0, "Analysis failed", true)
  /** The updates made before the stored file is looked up. */
  const OPENING_STAGES := [UPLOADING, INITIALIZING, SIGNATURES]

  /** A field of the parsed JSON body: `Missing` when the body has no such field, the JSON
      scalars, and `Compound` for an object or array, given by the text a template literal
      renders it as. Numbers are whole. */
  datatype JsonField =
    | Missing
    | Null
    | Bool(b: bool)
    | Number(n: int)
    | Text(s: string)
    | Compound(rendered: string)

  /** JavaScript truthiness: absent, null, false, 0 and "" are falsy, every other value
      (an object or array included) is truthy. */
  function Truthy(v: JsonField): (t: bool)
    ensures !t <==> v == Missing || v == Null || v == Bool(false) || v == Number(0) || v == Text("")
  {
    match v
    case Missing => false
    case Null => false
    case Bool(b) => b
    case Number(n) => n != 0
    case Text(s) => s != ""
    case Compound(_) => true
  }

  /** The text `${v}` puts in a template literal. */
  function Rendered(v: JsonField): string {
    match v
    case Missing => "undefined"
    case Null => "null"
    case Bool(b) => if b then "true" else "false"
    case Number(n) => if n < 0 then "-" + NatToString(-n) else NatToString(n)
    case Text(s) => s
    case Compound(r) => r
  }

  /** A number and the string of its digits name the same analysis, and so the same stored
      file; different numbers name different ones. */
  lemma NumberRendersAsDigits(n: nat, m: nat)
    ensures Rendered(Number(n)) == NatToString(n)
    ensures Rendered(Number(n)) == Rendered(Number(m)) ==> n == m
  {
    if Rendered(Number(n)) == Rendered(Number(m)) {
      NatToStringInjective(n, m);
    }
  }

  /** The fields of the POST body the handler reads. */
  datatype AnalyzeBody = AnalyzeBody(fileId: JsonField, metadata: JsonField)

  datatype StartResponse =
    | Started(analysisId: string, state: string, message: string)
    | StartFailed(status: nat, error: string)

  datatype ResultResponse =
    | Found(result: AnalysisResult)
    | NotAvailable(status: nat, error: string)

  /** The id under which the analysis of `fileId` is tracked. */
  function AnalysisId(fileId: string): (analysisId: string)
    ensures StartsWith(analysisId, ANALYSIS_PREFIX)
    ensures |analysisId| == |ANALYSIS_PREFIX| + |fileId|
  {
    ANALYSIS_PREFIX + fileId
  }

  /** `analysisId.replace("analysis-", "")`: the file id read back from an analysis id. */
  function FileIdOf(analysisId: string): string {
    ReplaceFirst(analysisId, ANALYSIS_PREFIX, "")
  }

  /** The file id comes back unchanged from the analysis id, whatever it contains, even
      another "analysis-"; so different files get different analysis ids. */
  lemma FileIdRoundTrip(fileId: string)
    ensures FileIdOf(AnalysisId(fileId)) == fileId
  {
    StripPrefixByReplace(ANALYSIS_PREFIX, fileId);
  }

  /** Different files are tracked under different analysis ids. */
  lemma AnalysisIdInjective(f1: string, f2: string)
    requires AnalysisId(f1) == AnalysisId(f2)
    ensures f1 == f2
  {
    FileIdRoundTrip(f1);
    FileIdRoundTrip(f2);
  }

  /** The progress updates `performAnalysis` makes, in order, depending on whether the
      file is still in storage when it is looked up after stage 3. */
  function AnalysisStages(found: bool): (stages: seq<Progress>)
    ensures |stages| == if found then 6 else 4
  {
    OPENING_STAGES + if found then [CROSS_REFERENCING, COMPILING, COMPLETE] else [FAILED]
  }

  /** The last entry a run leaves in the progress store. */
  function FinalStage(found: bool): Progress {
    if found then COMPLETE else FAILED
  }

  /** Every run ends with a completed entry and has no other: a client polling the
      progress stops exactly once. The run ends at stage 6 when the file was found and falls
      back to stage 0 when it was not; before the end the stages count up from 1 in steps
      of one. */
  lemma StagesShape(found: bool)
    ensures var s := AnalysisStages(found);
            s[|s| - 1].completed
            && (forall i :: 0 <= i < |s| - 1 ==> !s[i].completed && s[i].stage == i + 1)
            && s[|s| - 1].stage == (if found then 6 else 0)
            && (found <==> s[|s| - 1].message == "Analysis complete")
            && s[|s| - 1] == FinalStage(found)
  {
    assert FAILED.message[9] != COMPLETE.message[9];
  }

  /** What `analyzeFile` gives for a stored file: its type and original name choose the
      prompt, its bytes go with the request. */
  function FileReport(failures: FailureTable, keys: KeyList, file: StoredFile, now: int,
                      upstream: (AIProvider, GeminiRequest) -> Outcome,
                      parseJson: string -> Option<ParsedResponse>): Dispatch
  {
    var fileType := file.metadata.fileType;
    var fileName := file.metadata.originalName;
    AnalyzeFileSpec(failures, keys, FileRequest(fileType, fileName, file.buffer), fileType, now, upstream, parseJson)
  }

  /** `analyzeFile` on the stored file's bytes, type and original name. */
  method AnalyzeStoredFile(tracker: ProviderTracker, keys: KeyList, file: StoredFile, now: int,
                           upstream: (AIProvider, GeminiRequest) -> Outcome,
                           parseJson: string -> Option<ParsedResponse>)
    returns (analysisResult: AnalysisResult)
    modifies tracker
    ensures var spec := FileReport(old(tracker.failures), keys, file, now, upstream, parseJson);
            analysisResult == spec.result && tracker.failures == spec.failures
  {
    ghost var before := tracker.failures;
    var attempted;
    analysisResult, attempted := AnalyzeFile(tracker, keys, file.metadata.fileType, file.metadata.originalName,
                                             file.buffer, now, upstream, parseJson);
    assert Dispatch(analysisResult, attempted, tracker.failures) == FileReport(before, keys, file, now, upstream, parseJson);
  }

  /** Each update tagged with the analysis it belongs to. */
  function Tagged(analysisId: string, stages: seq<Progress>): (updates: seq<(string, Progress)>)
    ensures |updates| == |stages|
    ensures forall i :: 0 <= i < |stages| ==> updates[i] == (analysisId, stages[i])
  {
    seq(|stages|, i requires 0 <= i < |stages| => (analysisId, stages[i]))
  }

  /** The log after the three opening updates and the closing ones is the log with the
      run's stages appended. */
  lemma StagesLogged(log: seq<(string, Progress)>, analysisId: string, found: bool)
    ensures found ==>
              log + Tagged(analysisId, OPENING_STAGES)
              + [(analysisId, CROSS_REFERENCING)] + [(analysisId, COMPILING)] + [(analysisId, COMPLETE)]
              == log + Tagged(analysisId, AnalysisStages(found))
    ensures !found ==>
              log + Tagged(analysisId, OPENING_STAGES) + [(analysisId, FAILED)]
              == log + Tagged(analysisId, AnalysisStages(found))
  {
  }

  /** The module-level `analysisResults` and the progress store. */
  class AnalyzeRoute {
    var results: map<string, AnalysisResult>
    var progress: map<string, Progress>
    /** Every `updateProgress` call so far, in order. */
    ghost var updates: seq<(string, Progress)>

    constructor()
      ensures results == map[] && progress == map[] && updates == []
    {
      results := map[];
      progress := map[];
      updates := [];
    }

    /** `updateProgress(analysisId, stage, message, completed)`. */
    method UpdateProgress(analysisId: string, entry: Progress)
      modifies this
      ensures progress == old(progress)[analysisId := entry]
      ensures updates == old(updates) + [(analysisId, entry)]
      ensures results == old(results)
    {
      progress := progress[analysisId := entry];
      updates := updates + [(analysisId, entry)];
    }

    /** `performAnalysis(analysisId, metadata)`: stages 1 to 3, the stored file looked up
        by the id, then its analysis, stages 4 and 5, the report stored, and stage 6. A file
        that is no longer stored ends the run at stage 0 with no report. */
    method PerformAnalysis(analysisId: string, store: FileStore, tracker: ProviderTracker, keys: KeyList,
                           now: int, upstream: (AIProvider, GeminiRequest) -> Outcome,
                           parseJson: string -> Option<ParsedResponse>)
      modifies this, tracker
      ensures var found := FileIdOf(analysisId) in store.files;
              updates == old(updates) + Tagged(analysisId, AnalysisStages(found))
              && progress == old(progress)[analysisId := FinalStage(found)]
      ensures FileIdOf(analysisId) !in store.files ==>
                results == old(results) && tracker.failures == old(tracker.failures)
      ensures FileIdOf(analysisId) in store.files ==>
                var spec := FileReport(old(tracker.failures), keys, store.files[FileIdOf(analysisId)], now, upstream, parseJson);
                results == old(results)[analysisId := spec.result] && tracker.failures == spec.failures
    {
      BeginStages(analysisId);
      var fileId := FileIdOf(analysisId);
      var storedFile := store.GetFile(fileId);
      if storedFile.None? {
        EndStages(analysisId, false, old(updates), old(progress));
        return;
      }
      AnalyzeStored(analysisId, storedFile.value, tracker, keys, now, upstream, parseJson);
      EndStages(analysisId, true, old(updates), old(progress));
    }

    /** The stored file analysed and the report kept under the analysis id. */
    method AnalyzeStored(analysisId: string, file: StoredFile, tracker: ProviderTracker, keys: KeyList,
                         now: int, upstream: (AIProvider, GeminiRequest) -> Outcome,
                         parseJson: string -> Option<ParsedResponse>)
      modifies this, tracker
      ensures var spec := FileReport(old(tracker.failures), keys, file, now, upstream, parseJson);
              results == old(results)[analysisId := spec.result] && tracker.failures == spec.failures
      ensures updates == old(updates) && progress == old(progress)
    {
      var analysisResult := AnalyzeStoredFile(tracker, keys, file, now, upstream, parseJson);
      results := results[analysisId := analysisResult];
    }

    /** Stages 1 to 3, before the file is looked up. */
    method BeginStages(analysisId: string)
      modifies this
      ensures updates == old(updates) + Tagged(analysisId, OPENING_STAGES)
      ensures progress == old(progress)[analysisId := SIGNATURES]
      ensures results == old(results)
    {
      UpdateProgress(analysisId, UPLOADING);
      UpdateProgress(analysisId, INITIALIZING);
      UpdateProgress(analysisId, SIGNATURES);
      assert updates == old(updates) + Tagged(analysisId, OPENING_STAGES);
    }

    /** The updates after the lookup: stages 4, 5 and 6 when the file was found (the
        report is stored before stage 6 in the source; nothing reads it in between), else
        the failure entry. */
    method EndStages(analysisId: string, found: bool, ghost log: seq<(string, Progress)>,
                     ghost before: map<string, Progress>)
      requires updates == log + Tagged(analysisId, OPENING_STAGES)
      requires progress == before[analysisId := SIGNATURES]
      modifies this
      ensures updates == log + Tagged(analysisId, AnalysisStages(found))
      ensures progress == before[analysisId := FinalStage(found)]
      ensures results == old(results)
    {
      if found {
        UpdateProgress(analysisId, CROSS_REFERENCING);
        UpdateProgress(analysisId, COMPILING);
        UpdateProgress(analysisId, COMPLETE);
      } else {
        UpdateProgress(analysisId, FAILED);
      }
      StagesLogged(log, analysisId, found);
    }

    /** `POST(request)` with the parsed body (None when reading it throws): a falsy file id
        or metadata is refused with 400; otherwise the analysis runs under "analysis-"
        followed by the file id as a template literal renders it. */
    method Post(body: Option<AnalyzeBody>, store: FileStore, tracker: ProviderTracker, keys: KeyList,
                now: int, upstream: (AIProvider, GeminiRequest) -> Outcome,
                parseJson: string -> Option<ParsedResponse>)
      returns (response: StartResponse)
      modifies this, tracker
      ensures body.None? ==> response == StartFailed(500, START_FAILED)
      ensures body.Some? && (!Truthy(body.value.fileId) || !Truthy(body.value.metadata)) ==>
                response == StartFailed(400, MISSING_INPUT)
      ensures response.StartFailed? ==>
                results == old(results) && progress == old(progress) && updates == old(updates)
                && tracker.failures == old(tracker.failures)
      ensures response.Started? <==>
                body.Some? && Truthy(body.value.fileId) && Truthy(body.value.metadata)
      ensures response.Started? ==>
                var fileId := Rendered(body.value.fileId);
                var found := fileId in store.files;
                response == Started(AnalysisId(fileId), "started", STARTED_MESSAGE)
                && updates == old(updates) + Tagged(response.analysisId, AnalysisStages(found))
                && progress == old(progress)[response.analysisId := FinalStage(found)]
                && (found ==>
                      var spec := FileReport(old(tracker.failures), keys, store.files[fileId], now, upstream, parseJson);
                      results == old(results)[response.analysisId := spec.result] && tracker.failures == spec.failures)
                && (!found ==> results == old(results) && tracker.failures == old(tracker.failures))
    {
      if body.None? {
        return StartFailed(500, START_FAILED);
      }
      if !Truthy(body.value.fileId) || !Truthy(body.value.metadata) {
        return StartFailed(400, MISSING_INPUT);
      }
      var fileId := Rendered(body.value.fileId);
      var analysisId := ANALYSIS_PREFIX + fileId;
      FileIdRoundTrip(fileId);
      PerformAnalysis(analysisId, store, tracker, keys, now, upstream, parseJson);
      return Started(analysisId, "started", STARTED_MESSAGE);
    }

    /** `GET(request)` with the `analysisId` query parameter (None when absent): 400 without
        an id, 404 while no report is stored under it, else the report. */
    method Get(analysisId: Option<string>) returns (response: ResultResponse)
      ensures analysisId.None? || analysisId.value == "" ==> response == NotAvailable(400, MISSING_ID)
      ensures analysisId.Some? && analysisId.value != "" && analysisId.value !in results ==>
                response == NotAvailable(404, NOT_FOUND)
      ensures response.Found? <==> analysisId.Some? && analysisId.value != "" && analysisId.value in results
      ensures response.Found? ==> response.result == results[analysisId.value]
    {
      if analysisId.None? || analysisId.value == "" {
        return NotAvailable(400, MISSING_ID);
      }
      if analysisId.value !in results {
        return NotAvailable(404, NOT_FOUND);
      }
      return Found(results[analysisId.value]);
    }
  }

  /** Starting the analysis of a stored file and then asking for its report gives the
      report `analyzeFile` produced for that file; asking for a file that is not stored
      gives 404 even though the start answered success. */
  method StartThenFetch(route: AnalyzeRoute, store: FileStore, tracker: ProviderTracker, keys: KeyList,
                        fileId: string, now: int, upstream: (AIProvider, GeminiRequest) -> Outcome,
                        parseJson: string -> Option<ParsedResponse>)
    returns (started: StartResponse, fetched: ResultResponse)
    requires fileId != "" && fileId !in store.files ==> AnalysisId(fileId) !in route.results
    modifies route, tracker
    ensures fileId != "" ==> started == Started(AnalysisId(fileId), "started", STARTED_MESSAGE)
    ensures fileId != "" && fileId in store.files ==>
              fetched == Found(FileReport(old(tracker.failures), keys, store.files[fileId], now, upstream, parseJson).result)
    ensures fileId != "" && fileId !in store.files ==> fetched == NotAvailable(404, NOT_FOUND)
  {
    started := route.Post(Some(AnalyzeBody(Text(fileId), Bool(true))), store, tracker, keys, now, upstream, parseJson);
    fetched := route.Get(Some(AnalysisId(fileId)));
  }
}
