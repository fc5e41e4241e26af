/** components/visualizer-portal.tsx: the animated upload portal. Its React state is the
    fields of a `VisualizerPortal`; every value `setProgress`, `setScanningProgress` and
    `setAnalysisState` is given is also recorded in ghost traces, so that what the user
    sees over time can be stated. The waits between steps are left out; the random
    verdict and confidence and the clock reading that names the particles are parameters. */
module VisualizerPortal {
  import opened Wrappers
  import opened Strings
  import opened Buffers
  import opened ClientMedia
  import opened ProgressSteps

  datatype AnalysisState = Idle | Uploading | Analyzing | Scanning | Completed

  /** One decorative particle. */
  datatype Particle = Particle(id: int, delay: nat)

  /** What `onAnalysisComplete` is called with. */
  datatype Report = Report(result: Outcome, confidence: nat, kind: FileKind)

  const UNSUPPORTED := "UNSUPPORTED FILE TYPE. PROTOCOL ACCEPTS: JPG, PNG, WEBP, MP4, MOV, WEBM, MP3, WAV"

  /** `fileType.toUpperCase()`. */
  function KindName(kind: FileKind): string {
    match kind
    case Image => "IMAGE"
    case Video => "VIDEO"
    case Audio => "AUDIO"
  }

  /** `validateFile(file)`: None when the file may be analysed, else the message shown. */
  function ValidateFile(file: BrowserFile): (error: Option<string>)
    ensures error.None? <==> CheckFile(file).Passed?
    ensures CheckFile(file).Unsupported? ==> error == Some(UNSUPPORTED)
  {
    match CheckFile(file)
    case Unsupported => Some(UNSUPPORTED)
    case TooLarge(kind, maxMB) =>
      Some("FILE SIZE EXCEEDS LIMIT. MAXIMUM " + NatToString(maxMB) + "MB FOR " + KindName(kind) + " FILES.")
    case Passed => None
  }

  /** The progress values of one run: the reset to 0, then the upload, analysis and
      scanning loops. */
  function ProgressTrace(): seq<int> {
    UploadTrace() + ScanSteps()
  }

  /** The reset to 0, then the upload and analysis loops. */
  function UploadTrace(): seq<int> {
    UploadSteps() + AnalyzeSteps()
  }

  /** The reset to 0 and the upload loop. */
  function UploadSteps(): seq<int> {
    [0] + Steps(0, 20, 2)
  }

  /** The steps of the analysis loop. */
  function AnalyzeSteps(): seq<int> {
    Steps(20, 60, 5)
  }

  /** The steps of the scanning loop. */
  function ScanSteps(): seq<int> {
    Steps(60, 100, 4)
  }

  /** Each value lowered by `d`. */
  function Minus(s: seq<int>, d: int): (r: seq<int>)
    ensures |r| == |s| && forall i :: 0 <= i < |s| ==> r[i] == s[i] - d
  {
    seq(|s|, i requires 0 <= i < |s| => s[i] - d)
  }

  /** The scanning values of one run: `i - 60` for each step of the scanning loop. */
  function ScanTrace(): seq<int> {
    Minus(ScanSteps(), 60)
  }

  const STATE_TRACE := [Uploading, Analyzing, Scanning, Completed]

  /** Lowering a step sequence one step at a time. */
  lemma MinusCons(x: int, rest: seq<int>, d: int)
    ensures Minus([x] + rest, d) == [x - d] + Minus(rest, d)
  {
  }

  /** The bar only moves forward, stays within [0, 100] and ends full. */
  lemma ProgressTraceShape()
    ensures NonDecreasing(ProgressTrace())
    ensures forall i :: 0 <= i < |ProgressTrace()| ==> 0 <= ProgressTrace()[i] <= 100
    ensures ProgressTrace()[|ProgressTrace()| - 1] == 100
  {
    var up, an, sc := Steps(0, 20, 2), Steps(20, 60, 5), Steps(60, 100, 4);
    StepsNonDecreasing(0, 20, 2);
    StepsNonDecreasing(20, 60, 5);
    StepsNonDecreasing(60, 100, 4);
    StepsShape(0, 20, 2);
    StepsShape(20, 60, 5);
    StepsShape(60, 100, 4);
    StepsEnd(0, 20, 2, 10);
    StepsEnd(20, 60, 5, 8);
    StepsEnd(60, 100, 4, 10);
    assert NonDecreasing([0]);
    NonDecreasingJoin([0], up);
    NonDecreasingJoin([0] + up, an);
    NonDecreasingJoin([0] + up + an, sc);
    var t := ProgressTrace();
    assert t == [0] + up + an + sc;
    forall i | 0 <= i < |t| ensures 0 <= t[i] <= 100 {
      if i >= 1 + |up| + |an| {
        assert t[i] == sc[i - 1 - |up| - |an|];
      } else if i >= 1 + |up| {
        assert t[i] == an[i - 1 - |up|];
      } else if i >= 1 {
        assert t[i] == up[i - 1];
      }
    }
  }

  /** A run ends with the bar full and the scan at 40. */
  lemma TracesEnd()
    ensures ProgressTrace()[|ProgressTrace()| - 1] == 100
    ensures ScanTrace()[|ScanTrace()| - 1] == 40
  {
    StepsEnd(60, 100, 4, 10);
    var t := ProgressTrace();
    var sc := Steps(60, 100, 4);
    assert t == [0] + Steps(0, 20, 2) + Steps(20, 60, 5) + sc;
    assert t[|t| - 1] == sc[|sc| - 1];
  }

  /** A progress trace extended by the three loops of one run ends with the bar full. */
  lemma RunEnds(progress0: seq<int>, progress1: seq<int>, progressTrace: seq<int>)
    requires progress1 == progress0 + UploadTrace()
    requires progressTrace == progress1 + ScanSteps()
    ensures progressTrace == progress0 + ProgressTrace()
    ensures progressTrace[|progressTrace| - 1] == 100
  {
    assert progress0 + UploadTrace() + ScanSteps() == progress0 + (UploadTrace() + ScanSteps());
    TracesEnd();
    LastOfAppend(progress0, ProgressTrace());
  }

  /** A scanning trace extended by one run ends at 40. */
  lemma ScanEnds(scan0: seq<int>, scanTrace: seq<int>)
    requires scanTrace == scan0 + ScanTrace()
    ensures scanTrace[|scanTrace| - 1] == 40
  {
    TracesEnd();
    LastOfAppend(scan0, ScanTrace());
  }

  /** `scanningProgress` moves forward from 0 to 40 and stays in [0, 40]. */
  lemma ScanTraceShape()
    ensures NonDecreasing(ScanTrace())
    ensures forall i :: 0 <= i < |ScanTrace()| ==> 0 <= ScanTrace()[i] <= 40
    ensures ScanTrace()[0] == 0 && ScanTrace()[|ScanTrace()| - 1] == 40
  {
    StepsNonDecreasing(60, 100, 4);
    StepsShape(60, 100, 4);
    StepsEnd(60, 100, 4, 10);
  }

  /** The component's state. */
  class VisualizerPortal {
    var selectedFile: Option<BrowserFile>
    var analysisState: AnalysisState
    var progress: int
    var result: Option<Outcome>
    var confidence: nat
    var error: Option<string>
    var particles: seq<Particle>
    var scanningProgress: int
    /** Every value given to `setProgress`, `setScanningProgress` and `setAnalysisState`. */
    ghost var progressTrace: seq<int>
    ghost var scanTrace: seq<int>
    ghost var stateTrace: seq<AnalysisState>

    /** What is on screen is the last value set. */
    ghost predicate Valid()
      reads this
    {
      (progressTrace != [] ==> progress == progressTrace[|progressTrace| - 1])
      && (scanTrace != [] ==> scanningProgress == scanTrace[|scanTrace| - 1])
      && (stateTrace != [] ==> analysisState == stateTrace[|stateTrace| - 1])
    }

    /** The initial state of the hooks. */
    constructor()
      ensures Valid()
      ensures selectedFile == None && analysisState == Idle && progress == 0 && result == None
      ensures confidence == 0 && error == None && particles == [] && scanningProgress == 0
      ensures progressTrace == [] && scanTrace == [] && stateTrace == []
    {
      selectedFile := None;
      analysisState := Idle;
      progress := 0;
      result := None;
      confidence := 0;
      error := None;
      particles := [];
      scanningProgress := 0;
      progressTrace := [];
      scanTrace := [];
      stateTrace := [];
    }

    /** `setProgress(value)`. */
    method SetProgress(value: int)
      requires Valid()
      modifies this`progress, this`progressTrace
      ensures Valid()
      ensures progress == value && progressTrace == old(progressTrace) + [value]
    {
      progress := value;
      progressTrace := progressTrace + [value];
    }

    /** `setScanningProgress(value)`. */
    method SetScanningProgress(value: int)
      requires Valid()
      modifies this`scanningProgress, this`scanTrace
      ensures Valid()
      ensures scanningProgress == value && scanTrace == old(scanTrace) + [value]
    {
      scanningProgress := value;
      scanTrace := scanTrace + [value];
    }

    /** `setAnalysisState(state)`. */
    method SetState(state: AnalysisState)
      requires Valid()
      modifies this`analysisState, this`stateTrace
      ensures Valid()
      ensures analysisState == state && stateTrace == old(stateTrace) + [state]
    {
      analysisState := state;
      stateTrace := stateTrace + [state];
    }

    /** `createParticles()` at time `now`: eight particles 200 ms apart. */
    method CreateParticles(now: int)
      requires Valid()
      modifies this`particles
      ensures Valid()
      ensures |particles| == 8
      ensures forall i :: 0 <= i < 8 ==> particles[i] == Particle(now + i, i * 200)
    {
      particles := seq(8, i requires 0 <= i < 8 => Particle(now + i, i * 200));
    }

    /** `handleFileSelect(file)`: an invalid file only sets the error, and the previous
        selection stays; a valid one is selected, clears the error and the result, resets
        the progress to 0 and sets off new particles. */
    method HandleFileSelect(file: BrowserFile, now: int)
      requires Valid()
      modifies this`error, this`selectedFile, this`result, this`progress, this`progressTrace, this`particles
      ensures Valid()
      ensures ValidateFile(file).Some? ==>
                error == ValidateFile(file) && selectedFile == old(selectedFile) && result == old(result)
                && particles == old(particles) && progress == old(progress) && progressTrace == old(progressTrace)
      ensures ValidateFile(file).None? ==>
                selectedFile == Some(file) && error == None && result == None && progress == 0
                && progressTrace == old(progressTrace) + [0]
                && |particles| == 8 && forall i :: 0 <= i < 8 ==> particles[i] == Particle(now + i, i * 200)
      ensures analysisState == old(analysisState) && scanningProgress == old(scanningProgress)
      ensures confidence == old(confidence) && scanTrace == old(scanTrace) && stateTrace == old(stateTrace)
    {
      var validationError := ValidateFile(file);
      if validationError.Some? {
        error := validationError;
        return;
      }
      selectedFile := Some(file);
      error := None;
      result := None;
      SetProgress(0);
      CreateParticles(now);
    }

    /** `for (let i = lo; i <= hi; i += step) setProgress(i)`: the upload and analysis loops. */
    method ProgressLoop(lo: int, hi: int, step: nat)
      requires step > 0
      requires Valid()
      modifies this`progress, this`progressTrace
      ensures Valid()
      ensures progressTrace == old(progressTrace) + Steps(lo, hi, step)
    {
      var i := lo;
      while i <= hi
        invariant Valid()
        invariant progressTrace + Steps(i, hi, step) == old(progressTrace) + Steps(lo, hi, step)
        decreases hi - i + 1
      {
        ghost var rest := Steps(i + step, hi, step);
        StepsCons(i, hi, step);
        Shift(progressTrace, i, rest);
        SetProgress(i);
        i := i + step;
      }
    }

    /** The scanning loop: each step sets the progress to `i` and the scanning progress to
        `i - 60`. */
    method ScanLoop(lo: int, hi: int, step: nat)
      requires step > 0
      requires Valid()
      modifies this`progress, this`progressTrace, this`scanningProgress, this`scanTrace
      ensures Valid()
      ensures progressTrace == old(progressTrace) + Steps(lo, hi, step)
      ensures scanTrace == old(scanTrace) + Minus(Steps(lo, hi, step), 60)
    {
      var i := lo;
      while i <= hi
        invariant Valid()
        invariant progressTrace + Steps(i, hi, step) == old(progressTrace) + Steps(lo, hi, step)
        invariant scanTrace + Minus(Steps(i, hi, step), 60) == old(scanTrace) + Minus(Steps(lo, hi, step), 60)
        decreases hi - i + 1
      {
        ghost var rest := Steps(i + step, hi, step);
        StepsCons(i, hi, step);
        MinusCons(i, rest, 60);
        Shift(progressTrace, i, rest);
        Shift(scanTrace, i - 60, Minus(rest, 60));
        ScanStep(i);
        i := i + step;
      }
    }

    /** One step of the scanning loop. */
    method ScanStep(i: int)
      requires Valid()
      modifies this`progress, this`progressTrace, this`scanningProgress, this`scanTrace
      ensures Valid()
      ensures progressTrace == old(progressTrace) + [i] && scanTrace == old(scanTrace) + [i - 60]
    {
      SetProgress(i);
      SetScanningProgress(i - 60);
    }

    /** `simulateAnalysis()` with the two random draws: nothing happens without a selected
        file; otherwise the bar runs through the three loops to 100 while the state passes
        uploading, analyzing, scanning and completed, and the drawn verdict and a confidence
        of 70 to 99 are shown and reported with the file's family. */
    method SimulateAnalysis(resultDraw: nat, confidenceDraw: nat) returns (report: Option<Report>)
      requires resultDraw < 3 && confidenceDraw < 30
      requires Valid()
      modifies this
      ensures Valid()
      ensures old(selectedFile).None? ==> report == None && unchanged(this)
      ensures old(selectedFile).Some? ==>
                progressTrace == old(progressTrace) + ProgressTrace()
                && scanTrace == old(scanTrace) + ScanTrace()
                && stateTrace == old(stateTrace) + STATE_TRACE
                && result == Some(OUTCOMES[resultDraw]) && confidence == 70 + confidenceDraw
                && report == Some(Report(OUTCOMES[resultDraw], 70 + confidenceDraw,
                                         GetFileType(old(selectedFile).value.fileType)))
      ensures old(selectedFile).Some? ==> progress == 100 && scanningProgress == 40 && analysisState == Completed
      ensures selectedFile == old(selectedFile) && error == old(error) && particles == old(particles)
    {
      if selectedFile.None? {
        return None;
      }
      var shown := RunAndShow(OUTCOMES[resultDraw], 70 + confidenceDraw);
      return Some(Report(shown.0, shown.1, GetFileType(selectedFile.value.fileType)));
    }

    /** The three loops, then the verdict and confidence shown. */
    method RunAndShow(outcome: Outcome, drawnConfidence: nat) returns (shown: (Outcome, nat))
      requires Valid()
      modifies this`progress, this`progressTrace, this`scanningProgress, this`scanTrace, this`analysisState,
               this`stateTrace, this`result, this`confidence
      ensures Valid()
      ensures progressTrace == old(progressTrace) + ProgressTrace() && scanTrace == old(scanTrace) + ScanTrace()
      ensures stateTrace == old(stateTrace) + STATE_TRACE
      ensures result == Some(outcome) && confidence == drawnConfidence && shown == (outcome, drawnConfidence)
      ensures progress == 100 && scanningProgress == 40 && analysisState == Completed
    {
      ghost var state0 := stateTrace;
      RunPhases();
      ShowResult(outcome, drawnConfidence);
      assert state0 + [Uploading, Analyzing, Scanning] + [Completed] == state0 + STATE_TRACE;
      shown := (outcome, drawnConfidence);
    }

    /** The drawn verdict and confidence shown, and the state set to completed. */
    method ShowResult(outcome: Outcome, drawnConfidence: nat)
      requires Valid()
      modifies this`result, this`confidence, this`analysisState, this`stateTrace
      ensures Valid()
      ensures result == Some(outcome) && confidence == drawnConfidence
      ensures analysisState == Completed && stateTrace == old(stateTrace) + [Completed]
    {
      result := Some(outcome);
      confidence := drawnConfidence;
      SetState(Completed);
    }

    /** The three loops of `simulateAnalysis`, each after its state change. */
    method RunPhases()
      requires Valid()
      modifies this`progress, this`progressTrace, this`scanningProgress, this`scanTrace, this`analysisState, this`stateTrace
      ensures Valid()
      ensures progressTrace == old(progressTrace) + ProgressTrace()
      ensures scanTrace == old(scanTrace) + ScanTrace()
      ensures stateTrace == old(stateTrace) + [Uploading, Analyzing, Scanning]
      ensures progress == 100 && scanningProgress == 40
    {
      ghost var progress0, scan0, state0 := progressTrace, scanTrace, stateTrace;
      UploadAndAnalyze();
      ghost var progress1 := progressTrace;
      ScanPhase();
      assert state0 + [Uploading, Analyzing] + [Scanning] == state0 + [Uploading, Analyzing, Scanning];
      RunEnds(progress0, progress1, progressTrace);
      ScanEnds(scan0, scanTrace);
    }

    /** The scanning loop, after the state is set to scanning. */
    method ScanPhase()
      requires Valid()
      modifies this`progress, this`progressTrace, this`scanningProgress, this`scanTrace, this`analysisState, this`stateTrace
      ensures Valid()
      ensures progressTrace == old(progressTrace) + ScanSteps()
      ensures scanTrace == old(scanTrace) + ScanTrace()
      ensures stateTrace == old(stateTrace) + [Scanning]
    {
      SetState(Scanning);
      ScanLoop(60, 100, 4);
    }

    /** The upload and analysis loops, each after its state change. */
    method UploadAndAnalyze()
      requires Valid()
      modifies this`progress, this`progressTrace, this`analysisState, this`stateTrace
      ensures Valid()
      ensures progressTrace == old(progressTrace) + UploadTrace()
      ensures stateTrace == old(stateTrace) + [Uploading, Analyzing]
    {
      ghost var progress0 := progressTrace;
      UploadPhase();
      AnalyzePhase();
      assert progress0 + UploadSteps() + AnalyzeSteps() == progress0 + UploadTrace();
    }

    /** The upload loop, after the state is set to uploading and the bar to 0. */
    method UploadPhase()
      requires Valid()
      modifies this`progress, this`progressTrace, this`analysisState, this`stateTrace
      ensures Valid()
      ensures progressTrace == old(progressTrace) + UploadSteps()
      ensures stateTrace == old(stateTrace) + [Uploading]
    {
      SetState(Uploading);
      SetProgress(0);
      ProgressLoop(0, 20, 2);
    }

    /** The analysis loop, after the state is set to analyzing. */
    method AnalyzePhase()
      requires Valid()
      modifies this`progress, this`progressTrace, this`analysisState, this`stateTrace
      ensures Valid()
      ensures progressTrace == old(progressTrace) + AnalyzeSteps()
      ensures stateTrace == old(stateTrace) + [Analyzing]
    {
      SetState(Analyzing);
      ProgressLoop(20, 60, 5);
    }

    /** `resetAnalysis()`: back to the initial state. */
    method ResetAnalysis()
      requires Valid()
      modifies this
      ensures Valid()
      ensures selectedFile == None && analysisState == Idle && progress == 0 && scanningProgress == 0
      ensures result == None && confidence == 0 && error == None && particles == []
      ensures progressTrace == old(progressTrace) + [0] && scanTrace == old(scanTrace) + [0]
      ensures stateTrace == old(stateTrace) + [Idle]
    {
      selectedFile := None;
      SetState(Idle);
      SetProgress(0);
      SetScanningProgress(0);
      result := None;
      confidence := 0;
      error := None;
      particles := [];
    }
  }
}
