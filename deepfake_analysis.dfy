/** components/deepfake-analysis.tsx: the plain upload-and-analyse component. Its React
    state is the fields of a `DeepfakeAnalysis`; every value given to `setProgress` and
    `setAnalysisState` is also recorded in a ghost trace. The waits between steps are left
    out and the two random draws are parameters. */
module DeepfakeAnalysis {
  import opened Wrappers
  import opened Strings
  import opened Buffers
  import opened ClientMedia
  import opened ProgressSteps

  /** This component has no scanning phase. */
  datatype AnalysisState = Idle | Uploading | Analyzing | Completed

  const UNSUPPORTED := "Unsupported file type. Please upload JPG, PNG, WebP, MP4, MOV, WebM, MP3, or WAV files."

  /** The family as the message spells it. */
  function KindName(kind: FileKind): string {
    match kind
    case Image => "image"
    case Video => "video"
    case Audio => "audio"
  }

  /** `validateFile(file)`: None when the file may be analysed, else the message shown. */
  function ValidateFile(file: BrowserFile): (error: Option<string>)
    ensures error.None? <==> CheckFile(file).Passed?
    ensures CheckFile(file).Unsupported? ==> error == Some(UNSUPPORTED)
    ensures CheckFile(file).TooLarge? ==>
              error == Some("File too large. Maximum size for " + KindName(GetFileType(file.fileType))
                            + " files is " + NatToString(MaxSize(GetFileType(file.fileType)) / MiB) + "MB.")
  {
    match CheckFile(file)
    case Unsupported => Some(UNSUPPORTED)
    case TooLarge(kind, maxMB) =>
      Some("File too large. Maximum size for " + KindName(kind) + " files is " + NatToString(maxMB) + "MB.")
    case Passed => None
  }

  /** The limit the message names is the limit applied, in whole MiB: 10, 100 or 50. */
  lemma TooLargeMessageLimit(file: BrowserFile)
    requires CheckFile(file).TooLarge?
    ensures file.size > MaxSize(GetFileType(file.fileType))
    ensures ValidateFile(file) == Some("File too large. Maximum size for " + KindName(GetFileType(file.fileType))
                                       + " files is " + NatToString(MaxSize(GetFileType(file.fileType)) / MiB) + "MB.")
    ensures MaxSize(GetFileType(file.fileType)) / MiB in {10, 100, 50}
  {
  }

  /** The progress values of one run: the reset to 0, then the upload and analysis loops. */
  function ProgressTrace(): seq<int> {
    [0] + Steps(0, 30, 5) + Steps(30, 100, 10)
  }

  const STATE_TRACE := [Uploading, Analyzing, Completed]

  /** The bar never goes back, stays within [0, 100] and ends full. */
  lemma ProgressTraceShape()
    ensures NonDecreasing(ProgressTrace())
    ensures forall i :: 0 <= i < |ProgressTrace()| ==> 0 <= ProgressTrace()[i] <= 100
    ensures ProgressTrace()[|ProgressTrace()| - 1] == 100
  {
    var up, an := Steps(0, 30, 5), Steps(30, 100, 10);
    StepsNonDecreasing(0, 30, 5);
    StepsNonDecreasing(30, 100, 10);
    StepsShape(0, 30, 5);
    StepsShape(30, 100, 10);
    StepsEnd(0, 30, 5, 6);
    StepsEnd(30, 100, 10, 7);
    assert NonDecreasing([0]);
    NonDecreasingJoin([0], up);
    NonDecreasingJoin([0] + up, an);
    var t := ProgressTrace();
    assert t == [0] + up + an;
    forall i | 0 <= i < |t| ensures 0 <= t[i] <= 100 {
      if i >= 1 + |up| {
        assert t[i] == an[i - 1 - |up|];
      } else if i >= 1 {
        assert t[i] == up[i - 1];
      }
    }
  }

  /** A trace extended by the two loops of one run ends with the bar full. */
  lemma RunEnds(progress0: seq<int>, progressTrace: seq<int>)
    requires progressTrace == progress0 + [0] + Steps(0, 30, 5) + Steps(30, 100, 10)
    ensures progressTrace == progress0 + ProgressTrace()
    ensures progressTrace[|progressTrace| - 1] == 100
  {
    var an := Steps(30, 100, 10);
    StepsEnd(30, 100, 10, 7);
    assert progressTrace[|progressTrace| - 1] == an[|an| - 1];
  }

  /** The component's state. */
  class DeepfakeAnalysis {
    var selectedFile: Option<BrowserFile>
    var analysisState: AnalysisState
    var progress: int
    var result: Option<Outcome>
    var confidence: nat
    var error: Option<string>
    /** Every value given to `setProgress` and `setAnalysisState`. */
    ghost var progressTrace: seq<int>
    ghost var stateTrace: seq<AnalysisState>

    /** What is on screen is the last value set. */
    ghost predicate Valid()
      reads this
    {
      (progressTrace != [] ==> progress == progressTrace[|progressTrace| - 1])
      && (stateTrace != [] ==> analysisState == stateTrace[|stateTrace| - 1])
    }

    /** The initial state of the hooks. */
    constructor()
      ensures Valid()
      ensures selectedFile == None && analysisState == Idle && progress == 0 && result == None
      ensures confidence == 0 && error == None
      ensures progressTrace == [] && stateTrace == []
    {
      selectedFile := None;
      analysisState := Idle;
      progress := 0;
      result := None;
      confidence := 0;
      error := None;
      progressTrace := [];
      stateTrace := [];
    }

    /** `setProgress(value)`. */
    method SetProgress(value: int)
      requires Valid()
      modifies this`progress, this`progressTrace
      ensures Valid()
      ensures progress == value && progressTrace == old(progressTrace) + [value]
    {
      progress := value;
      progressTrace := progressTrace + [value];
    }

    /** `setAnalysisState(state)`. */
    method SetState(state: AnalysisState)
      requires Valid()
      modifies this`analysisState, this`stateTrace
      ensures Valid()
      ensures analysisState == state && stateTrace == old(stateTrace) + [state]
    {
      analysisState := state;
      stateTrace := stateTrace + [state];
    }

    /** `handleFileSelect(file)`: an invalid file only sets the error, and the previous
        selection stays; a valid one is selected and clears the error and the result, and
        the progress goes back to 0. */
    method HandleFileSelect(file: BrowserFile)
      requires Valid()
      modifies this`error, this`selectedFile, this`result, this`progress, this`progressTrace
      ensures Valid()
      ensures ValidateFile(file).Some? ==>
                error == ValidateFile(file) && selectedFile == old(selectedFile) && result == old(result)
                && progress == old(progress) && progressTrace == old(progressTrace)
      ensures ValidateFile(file).None? ==>
                selectedFile == Some(file) && error == None && result == None && progress == 0
                && progressTrace == old(progressTrace) + [0]
      ensures analysisState == old(analysisState) && confidence == old(confidence) && stateTrace == old(stateTrace)
    {
      var validationError := ValidateFile(file);
      if validationError.Some? {
        error := validationError;
        return;
      }
      selectedFile := Some(file);
      error := None;
      result := None;
      SetProgress(0);
    }

    /** `for (let i = lo; i <= hi; i += step) setProgress(i)`. */
    method ProgressLoop(lo: int, hi: int, step: nat)
      requires step > 0
      requires Valid()
      modifies this`progress, this`progressTrace
      ensures Valid()
      ensures progressTrace == old(progressTrace) + Steps(lo, hi, step)
    {
      var i := lo;
      while i <= hi
        invariant Valid()
        invariant progressTrace + Steps(i, hi, step) == old(progressTrace) + Steps(lo, hi, step)
        decreases hi - i + 1
      {
        ghost var rest := Steps(i + step, hi, step);
        StepsCons(i, hi, step);
        Shift(progressTrace, i, rest);
        SetProgress(i);
        i := i + step;
      }
    }

    /** The upload and analysis loops, each after its state change. */
    method RunPhases()
      requires Valid()
      modifies this`progress, this`progressTrace, this`analysisState, this`stateTrace
      ensures Valid()
      ensures progressTrace == old(progressTrace) + ProgressTrace()
      ensures stateTrace == old(stateTrace) + [Uploading, Analyzing]
      ensures progress == 100
    {
      ghost var progress0 := progressTrace;
      SetState(Uploading);
      SetProgress(0);
      ProgressLoop(0, 30, 5);
      SetState(Analyzing);
      ProgressLoop(30, 100, 10);
      RunEnds(progress0, progressTrace);
    }

    /** `simulateAnalysis()` with the two random draws. It does not look at the selection:
        the bar runs 0 to 30 in steps of 5 and 30 to 100 in steps of 10 while the state
        passes uploading, analyzing and completed; then the drawn verdict and a confidence
        of 70 to 99 are shown and passed to `onAnalysisComplete`. */
    method SimulateAnalysis(resultDraw: nat, confidenceDraw: nat) returns (outcome: Outcome, drawnConfidence: nat)
      requires resultDraw < 3 && confidenceDraw < 30
      requires Valid()
      modifies this`progress, this`progressTrace, this`analysisState, this`stateTrace, this`result, this`confidence
      ensures Valid()
      ensures outcome == OUTCOMES[resultDraw] && drawnConfidence == 70 + confidenceDraw
      ensures 70 <= drawnConfidence <= 99
      ensures progressTrace == old(progressTrace) + ProgressTrace()
      ensures stateTrace == old(stateTrace) + STATE_TRACE
      ensures result == Some(outcome) && confidence == drawnConfidence
      ensures progress == 100 && analysisState == Completed
    {
      ghost var state0 := stateTrace;
      RunPhases();
      outcome := OUTCOMES[resultDraw];
      drawnConfidence := 70 + confidenceDraw;
      result := Some(outcome);
      confidence := drawnConfidence;
      SetState(Completed);
      assert state0 + [Uploading, Analyzing] + [Completed] == state0 + STATE_TRACE;
    }

    /** `resetAnalysis()`: no selection, idle, the bar at 0, no result, confidence 0 and
        no error. */
    method ResetAnalysis()
      requires Valid()
      modifies this
      ensures Valid()
      ensures selectedFile == None && analysisState == Idle && progress == 0
      ensures result == None && confidence == 0 && error == None
      ensures progressTrace == old(progressTrace) + [0] && stateTrace == old(stateTrace) + [Idle]
    {
      selectedFile := None;
      SetState(Idle);
      SetProgress(0);
      result := None;
      confidence := 0;
      error := None;
    }
  }
}
