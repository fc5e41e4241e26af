/** lib/ai-analysis.ts: deepfake analysis through the Gemini API with failover across the
    stored keys. A provider that fails is recorded in a failure table; a provider with three
    or more failures inside the last minute is skipped; the providers that remain are tried
    in order until one answers with a usable report, and a fixed fallback report is returned
    when none does.

    The clock, the upstream HTTP exchange and `JSON.parse` are parameters: `now` is the
    millisecond time of the request, `upstream` gives each provider's answer to a request,
    and `parseJson` maps a text to the object it parses to (None when it throws). */
module AiAnalysis {
  import opened Wrappers
  import opened Buffers
  import opened Strings
  import opened KeyStorage

  // ---------------------------------------------------------------------------------------
  // Data

  datatype KeyIndicator = KeyIndicator(name: string, status: string, reason: string)

  datatype Factor = Factor(title: string, description: string, confidence: int, category: string)

  datatype AnalysisResult = AnalysisResult(
    authenticityScore: int,
    confidenceLevel: string,
    keyIndicators: seq<KeyIndicator>,
    top5Factors: seq<Factor>,
    finalAssessment: string)

  /** The fields of the object `JSON.parse` returns that the code looks at; None stands for
      a missing (or null) field. */
  datatype ParsedResponse = ParsedResponse(
    authenticityScore: Option<int>,
    confidenceLevel: Option<string>,
    keyIndicators: Option<seq<KeyIndicator>>,
    top5Factors: Option<seq<Factor>>,
    finalAssessment: Option<string>)

  datatype AIProvider = AIProvider(name: string, endpoint: string, apiKey: string, model: string)

  /** One entry of `providerFailures`. */
  datatype FailureRecord = FailureRecord(count: nat, lastFailure: int)

  type FailureTable = map<string, FailureRecord>

  const RATE_LIMIT_COOLDOWN := 60000
  const MAX_FAILURES := 3
  /** 15 MiB. */
  const MAX_BASE64_SIZE := 15728640

  // ---------------------------------------------------------------------------------------
  // The failure table

  /** What `isProviderAvailable` answers for `name` at time `now`. */
  predicate Available(failures: FailureTable, name: string, now: int) {
    name !in failures
    || now - failures[name].lastFailure > RATE_LIMIT_COOLDOWN
    || failures[name].count < MAX_FAILURES
  }

  /** The table after `isProviderAvailable`: a record older than the cooldown is dropped. */
  function AfterAvailabilityCheck(failures: FailureTable, name: string, now: int): (f: FailureTable)
    ensures f.Keys <= failures.Keys
    ensures forall other :: other != name && other in failures ==> other in f && f[other] == failures[other]
  {
    if name in failures && now - failures[name].lastFailure > RATE_LIMIT_COOLDOWN
    then failures - {name} else failures
  }

  /** The table after `recordProviderFailure`. */
  function RecordFailure(failures: FailureTable, name: string, now: int): (f: FailureTable)
    ensures f.Keys == failures.Keys + {name}
    ensures forall other :: other != name && other in failures ==> f[other] == failures[other]
  {
    var existing := if name in failures then failures[name] else FailureRecord(0, 0);
    failures[name := FailureRecord(existing.count + 1, now)]
  }

  /** The count `name` has in the table, 0 without a record. */
  function CountOf(failures: FailureTable, name: string): nat {
    if name in failures then failures[name].count else 0
  }

  /** The module-level `providerFailures` map with the two functions that use it. */
  class ProviderTracker {
    var failures: FailureTable

    constructor()
      ensures failures == map[]
    {
      failures := map[];
    }

    /** `isProviderAvailable(name)` at time `now`. */
    method IsProviderAvailable(name: string, now: int) returns (available: bool)
      modifies this
      ensures available == Available(old(failures), name, now)
      ensures failures == AfterAvailabilityCheck(old(failures), name, now)
    {
      if name !in failures {
        return true;
      }
      var failure := failures[name];
      var timeSinceLastFailure := now - failure.lastFailure;
      if timeSinceLastFailure > RATE_LIMIT_COOLDOWN {
        failures := failures - {name};
        return true;
      }
      return failure.count < MAX_FAILURES;
    }

    /** `recordProviderFailure(name, isRateLimit)` at time `now`; the flag is only logged. */
    method RecordProviderFailure(name: string, now: int, isRateLimit: bool)
      modifies this
      ensures failures == RecordFailure(old(failures), name, now)
    {
      var existing := if name in failures then failures[name] else FailureRecord(0, 0);
      failures := failures[name := FailureRecord(existing.count + 1, now)];
    }
  }

  /** A provider without a record is available; one whose last failure is more than a
      minute old is available and its record is dropped; otherwise it is available exactly
      while it has fewer than three failures, so at exactly 60000 ms the count still decides. */
  lemma AvailabilityRules(failures: FailureTable, name: string, now: int)
    ensures name !in failures ==>
              Available(failures, name, now) && AfterAvailabilityCheck(failures, name, now) == failures
    ensures name in failures && now - failures[name].lastFailure > RATE_LIMIT_COOLDOWN ==>
            Available(failures, name, now) && name !in AfterAvailabilityCheck(failures, name, now)
    ensures name in failures && now - failures[name].lastFailure <= RATE_LIMIT_COOLDOWN ==>
            (Available(failures, name, now) <==> failures[name].count < MAX_FAILURES)
            && AfterAvailabilityCheck(failures, name, now) == failures
  {
  }

  /** Recording a failure adds one to the count whatever the age of the old record, so a
      stale count keeps growing, and touches no other provider. */
  lemma RecordFailureCounts(failures: FailureTable, name: string, now: int)
    ensures CountOf(RecordFailure(failures, name, now), name) == CountOf(failures, name) + 1
    ensures RecordFailure(failures, name, now)[name].lastFailure == now
    ensures forall other :: other != name ==>
              CountOf(RecordFailure(failures, name, now), other) == CountOf(failures, other)
  {
  }

  /** Checking twice changes nothing more than checking once. */
  lemma AvailabilityCheckIdempotent(failures: FailureTable, name: string, now: int)
    ensures var f := AfterAvailabilityCheck(failures, name, now);
            AfterAvailabilityCheck(f, name, now) == f && Available(f, name, now) == Available(failures, name, now)
  {
  }

  /** Three failures at time t take a fresh provider out of rotation for exactly one minute:
      it is unavailable at every time up to t + 60000 and available after it. */
  lemma ThreeStrikesCooldown(failures: FailureTable, name: string, t: int, later: int)
    requires name !in failures
    requires later >= t
    ensures var f := RecordFailure(RecordFailure(RecordFailure(failures, name, t), name, t), name, t);
            Available(f, name, later) <==> later > t + RATE_LIMIT_COOLDOWN
  {
    var f := RecordFailure(RecordFailure(RecordFailure(failures, name, t), name, t), name, t);
    assert f[name] == FailureRecord(3, t);
  }

  // ---------------------------------------------------------------------------------------
  // Rate-limit classification

  const RATE_LIMIT_PATTERNS := ["rate limit", "quota", "too many requests"]

  /** `isRateLimitError(error, response)`: the response status, when there is one, or the
      error message, when there is one. */
  function IsRateLimitError(status: Option<nat>, message: Option<string>): (r: bool)
    ensures status == Some(429) ==> r
    ensures status != Some(429) ==>
              (r <==> exists i :: 0 <= i < |RATE_LIMIT_PATTERNS| &&
                                  Contains(ToLower(if message.Some? then message.value else ""), RATE_LIMIT_PATTERNS[i]))
  {
    if status == Some(429) then true
    else
      var errorMessage := ToLower(if message.Some? then message.value else "");
      var r := Contains(errorMessage, "rate limit") || Contains(errorMessage, "quota")
               || Contains(errorMessage, "too many requests");
      assert r <==> exists i :: 0 <= i < |RATE_LIMIT_PATTERNS| && Contains(errorMessage, RATE_LIMIT_PATTERNS[i]) by {
        assert RATE_LIMIT_PATTERNS[0] == "rate limit" && RATE_LIMIT_PATTERNS[1] == "quota"
               && RATE_LIMIT_PATTERNS[2] == "too many requests";
      }
      r
  }

  // ---------------------------------------------------------------------------------------
  // Prompts

  const BASE_PROMPT :=
@"You are an expert forensic deepfake detection system with advanced knowledge of AI-generated content, voice cloning, face swapping, and digital manipulation techniques.

CRITICAL INSTRUCTIONS:
1. Respond with ONLY a valid JSON object - no other text, explanations, or markdown
2. Consider that MOST legitimate content (professional music, photos, videos) should score 70-95% authentic
3. Only flag content as suspicious (below 60%) if you detect clear manipulation artifacts
4. Real-world content often has compression artifacts, noise, or quality issues - these are NORMAL
5. IMPORTANT: Generate unique, specific ""top5Factors"" based on actual analysis of this specific media

Required JSON format:
{
  ""authenticityScore"": <number 0-100>,
  ""confidenceLevel"": ""<Low|Medium|High>"",
  ""keyIndicators"": [
    {
      ""name"": ""<indicator name>"",
      ""status"": ""<Natural|Suspicious>"",
      ""reason"": ""<brief technical explanation>""
    }
  ],
  ""top5Factors"": [
    {
      ""title"": ""<specific factor title>"",
      ""description"": ""<detailed explanation specific to this media>"",
      ""confidence"": <number 0-100>,
      ""category"": ""<Technical|Visual|Audio|Metadata|Pattern>""
    }
  ],
  ""finalAssessment"": ""<single sentence technical summary>""
}

SCORING GUIDELINES:
- 90-100%: Clearly authentic, professional content
- 70-89%: Likely authentic with normal compression/quality variations
- 50-69%: Uncertain, requires human review
- 30-49%: Likely manipulated or AI-generated
- 0-29%: Clearly artificial or heavily manipulated

"

  const IMAGE_SECTION :=
@"
ANALYZE THIS IMAGE for deepfake/AI generation signs:

TECHNICAL INDICATORS TO EXAMINE:
- Facial Consistency: Asymmetrical features, inconsistent lighting on face, unnatural skin texture
- Visual Artifacts: Blurring around edges, pixel inconsistencies, compression anomalies beyond normal JPEG
- Anatomical Accuracy: Impossible poses, missing/extra fingers, distorted proportions
- Lighting & Shadows: Inconsistent light sources, impossible shadow directions
- Background Integration: Poor edge blending, inconsistent perspective

IMPORTANT: Professional photos, selfies, and social media images typically score 80-95% authentic.
Only flag as suspicious if you see clear manipulation artifacts, not normal photo compression.

"

  const VIDEO_SECTION :=
@"
ANALYZE THIS VIDEO for deepfake/manipulation signs:

TECHNICAL INDICATORS TO EXAMINE:
- Facial Consistency: Face swapping artifacts, inconsistent facial features across frames
- Temporal Consistency: Flickering, morphing between frames, unstable facial boundaries
- Audio-Visual Sync: Lip-sync accuracy, voice matching facial movements
- Audio Quality: Voice cloning artifacts, robotic tones, unnatural speech patterns
- Visual Artifacts: Frame inconsistencies, blurring, unnatural motion

IMPORTANT: Professional videos, social media content, and phone recordings typically score 75-90% authentic.
Consider normal video compression, lighting changes, and camera movement as natural variations.

"

  const AUDIO_SECTION :=
@"
ANALYZE THIS AUDIO for voice cloning/AI generation signs:

TECHNICAL INDICATORS TO EXAMINE:
- Voice Naturalness: Robotic tones, unnatural cadence, missing emotional inflection
- Breathing Patterns: Absent or artificial breathing sounds, unnatural pauses
- Background Consistency: Inconsistent room tone, artificial noise patterns
- Frequency Analysis: Unnatural frequency distributions, missing harmonics
- Speech Patterns: Repetitive intonation, missing natural speech variations

IMPORTANT: Professional music, recordings, and voice messages typically score 80-95% authentic.
Music production, auto-tune, and audio processing are NORMAL and should not reduce authenticity scores.
Only flag as suspicious if you detect clear voice cloning or AI generation artifacts.

SPECIAL NOTE: Commercial music tracks, songs by known artists, and professional recordings should score very high (85-95%) unless clear manipulation is detected.

"

  /** A prompt is kept as the list of its parts: the fixed passages above, the closing
      file line and the note added for a large file. `PromptText` gives the exact wording,
      so reasoning about requests never has to look inside the long passages. */
  datatype PromptPart =
    | BasePrompt
    | ImageSection
    | VideoSection
    | AudioSection
    | FileTrailer(fileName: string, fileType: string)
    | LargeFileNote(fileType: string, fileName: string, size: nat)

  /** The wording of one part. */
  function PartText(part: PromptPart): string {
    match part
    case BasePrompt => BASE_PROMPT
    case ImageSection => IMAGE_SECTION
    case VideoSection => VIDEO_SECTION
    case AudioSection => AUDIO_SECTION
    case FileTrailer(fileName, fileType) => "File: " + fileName + "\nType: " + fileType
    case LargeFileNote(fileType, fileName, size) => LargeFileNoteText(fileType, fileName, size)
  }

  /** The wording of a prompt: its parts one after the other. */
  function PromptText(parts: seq<PromptPart>): string {
    Joined(parts, PartText)
  }

  /** The texts of the items one after the other, each rendered by `text`. */
  function Joined<T>(items: seq<T>, text: T -> string): string
    decreases |items|
  {
    if items == [] then "" else text(items[0]) + Joined(items[1..], text)
  }

  /** Joining two lists gives the first's text, then the second's. */
  lemma {:induction false} JoinedAppend<T>(a: seq<T>, b: seq<T>, text: T -> string)
    ensures Joined(a + b, text) == Joined(a, text) + Joined(b, text)
    decreases |a|
  {
    if a != [] {
      assert (a + b)[1..] == a[1..] + b;
      JoinedAppend(a[1..], b, text);
    } else {
      assert a + b == b;
    }
  }

  /** Joining a first item, a list and a last item gives their texts in that order. */
  lemma JoinedThree<T>(x: T, mid: seq<T>, y: T, text: T -> string)
    ensures Joined([x] + mid + [y], text) == text(x) + Joined(mid, text) + text(y)
  {
    JoinedAppend([x] + mid, [y], text);
    JoinedAppend([x], mid, text);
    JoinedOne(x, text);
    JoinedOne(y, text);
  }

  /** Joining one item gives that item's text. */
  lemma JoinedOne<T>(x: T, text: T -> string)
    ensures Joined([x], text) == text(x)
  {
    assert [x][1..] == [];
  }

  /** The section for the file's media family, tested in the order image, video, audio;
      none for other types. */
  function PromptSection(fileType: string): (section: seq<PromptPart>)
    ensures StartsWith(fileType, "image/") ==> section == [ImageSection]
    ensures !StartsWith(fileType, "image/") && StartsWith(fileType, "video/") ==> section == [VideoSection]
    ensures !StartsWith(fileType, "image/") && !StartsWith(fileType, "video/") && StartsWith(fileType, "audio/")
            ==> section == [AudioSection]
    ensures !StartsWith(fileType, "image/") && !StartsWith(fileType, "video/") && !StartsWith(fileType, "audio/")
            ==> section == []
  {
    if StartsWith(fileType, "image/") then [ImageSection]
    else if StartsWith(fileType, "video/") then [VideoSection]
    else if StartsWith(fileType, "audio/") then [AudioSection]
    else []
  }

  /** `getAnalysisPrompt(fileType, fileName)`: the base prompt, then the section for the
      file's media family, then the file name and type. */
  function GetAnalysisPrompt(fileType: string, fileName: string): (r: seq<PromptPart>)
  {
    [BasePrompt] + PromptSection(fileType) + [FileTrailer(fileName, fileType)]
  }

  /** The wording is the base prompt, then exactly the media family's section, then
      "File: <name>\nType: <type>". */
  lemma PromptWording(fileType: string, fileName: string)
    ensures PromptText(GetAnalysisPrompt(fileType, fileName))
            == PartText(BasePrompt) + PromptText(PromptSection(fileType)) + PartText(FileTrailer(fileName, fileType))
  {
    JoinedThree(BasePrompt, PromptSection(fileType), FileTrailer(fileName, fileType), PartText);
  }

  // ---------------------------------------------------------------------------------------
  // Cleaning and validating the model's reply

  const FENCE := "```"
  const JSON_FENCE := "```json"

  /** A `{` occurs somewhere before a `}`. */
  predicate HasBracedSpan(s: string) {
    exists i, j :: 0 <= i < j < |s| && s[i] == '{' && s[j] == '}'
  }

  /** The slice from the first `{` to the last `}` when the first comes before the last,
      otherwise the text as it is. */
  function SliceJson(s: string): (r: string)
    ensures |r| <= |s|
    ensures !HasBracedSpan(s) ==> r == s
  {
    var jsonStart := IndexOf(s, '{');
    var jsonEnd := LastIndexOf(s, '}');
    BracedSpanFound(s);
    if jsonStart.Some? && jsonEnd.Some? && jsonEnd.value > jsonStart.value then
      s[jsonStart.value..jsonEnd.value + 1]
    else
      s
  }

  /** `r` runs from a `{` to a `}` and sits in `s` with no `{` before it and no `}` after it. */
  ghost predicate OutermostBraces(s: string, r: string) {
    |r| >= 2 && r[0] == '{' && r[|r| - 1] == '}'
    && exists a, b :: s == a + r + b && '{' !in a && '}' !in b
  }

  /** With a braced span, the slice is the outermost braced part of the text. */
  lemma SliceJsonBraced(s: string)
    requires HasBracedSpan(s)
    ensures OutermostBraces(s, SliceJson(s))
  {
    BracedSpanFound(s);
    var i, j := IndexOf(s, '{').value, LastIndexOf(s, '}').value;
    assert SliceJson(s) == s[i..j + 1];
    SliceAround(s, i, j);
  }

  /** Both searches succeed, the first `{` before the last `}`, exactly when there is a
      braced span. */
  lemma BracedSpanFound(s: string)
    ensures HasBracedSpan(s) <==>
              IndexOf(s, '{').Some? && LastIndexOf(s, '}').Some? && LastIndexOf(s, '}').value > IndexOf(s, '{').value
  {
    var jsonStart := IndexOf(s, '{');
    var jsonEnd := LastIndexOf(s, '}');
    if HasBracedSpan(s) {
      var i, j :| 0 <= i < j < |s| && s[i] == '{' && s[j] == '}';
      assert jsonStart.Some? && jsonStart.value <= i;
      assert jsonEnd.Some? && jsonEnd.value >= j;
    }
    if jsonStart.Some? && jsonEnd.Some? && jsonEnd.value > jsonStart.value {
      assert s[jsonStart.value] == '{' && s[jsonEnd.value] == '}';
    }
  }

  /** The text around the slice from the first `{` at `i` to the last `}` at `j`. */
  lemma SliceAround(s: string, i: nat, j: nat)
    requires i < j < |s| && s[i] == '{' && s[j] == '}'
    requires forall k :: 0 <= k < i ==> s[k] != '{'
    requires forall k :: j < k < |s| ==> s[k] != '}'
    ensures OutermostBraces(s, s[i..j + 1])
  {
    var a, b := s[..i], s[j + 1..];
    assert s == a + s[i..j + 1] + b;
    assert forall k :: 0 <= k < |a| ==> a[k] == s[k];
    assert forall k :: 0 <= k < |b| ==> b[k] == s[j + 1 + k];
    assert '{' !in a && '}' !in b;
  }

  /** The text handed to `JSON.parse`: trimmed, every "```json" and every "```" removed
      together with the white space after it, then cut down to the braced span. */
  function CleanResponse(text: string): string {
    var cleanText := Trim(text);
    var unfenced := RemoveAll(RemoveAll(cleanText, JSON_FENCE), FENCE);
    SliceJson(unfenced)
  }

  /** A JavaScript truthiness test on each of the four required fields. A score of 0 is
      falsy; an empty indicator array is truthy. */
  predicate WellFormed(p: ParsedResponse) {
    p.authenticityScore.Some? && p.authenticityScore.value != 0
    && p.confidenceLevel.Some? && p.confidenceLevel.value != ""
    && p.keyIndicators.Some?
    && p.finalAssessment.Some? && p.finalAssessment.value != ""
  }

  /** `parseAIResponse(text, providerName)`. */
  function ParseAIResponse(text: string, providerName: string, parseJson: string -> Option<ParsedResponse>)
    : (r: Result<AnalysisResult, string>)
    ensures text == "" ==> r == Err("Empty response from " + providerName)
    ensures r.Ok? <==>
              text != "" && parseJson(CleanResponse(text)).Some? && WellFormed(parseJson(CleanResponse(text)).value)
    ensures r.Err? && text != "" ==> r.error == "Could not parse response from " + providerName
    ensures r.Ok? ==>
              var p := parseJson(CleanResponse(text)).value;
              r.value.authenticityScore == p.authenticityScore.value != 0
              && r.value.confidenceLevel == p.confidenceLevel.value != ""
              && r.value.keyIndicators == p.keyIndicators.value
              && r.value.finalAssessment == p.finalAssessment.value != ""
              && r.value.top5Factors == (if p.top5Factors.Some? then p.top5Factors.value else [])
  {
    if text == "" then Err("Empty response from " + providerName)
    else
      var cleanText := CleanResponse(text);
      match parseJson(cleanText)
      case None => Err("Could not parse response from " + providerName)
      case Some(parsed) =>
        if !WellFormed(parsed) then Err("Could not parse response from " + providerName)
        else Ok(AnalysisResult(
          parsed.authenticityScore.value,
          parsed.confidenceLevel.value,
          parsed.keyIndicators.value,
          if parsed.top5Factors.Some? then parsed.top5Factors.value else [],
          parsed.finalAssessment.value))
  }

  /** Removal keeps the first character of a string that does not start with a backtick. */
  lemma FirstCharKept(t: string)
    requires t != [] && t[0] != '`'
    ensures RemoveAll(t, FENCE) != [] && RemoveAll(t, FENCE)[0] == t[0]
  {
    assert !StartsWith(t, FENCE) by {
      if |FENCE| <= |t| {
        assert t[..3][0] == t[0];
      }
    }
  }

  /** A character that is not a backtick among the three at `i`: no fence occurs at `i`. */
  lemma NoFenceAt(w: string, i: nat, k: nat)
    requires k < 3 && i + k < |w| && w[i + k] != '`'
    ensures !OccursAt(w, FENCE, i)
  {
    if i + 3 <= |w| {
      assert w[i..i + 3][k] == w[i + k];
    }
  }

  /** A character the scan keeps never begins a fence together with what follows it. */
  lemma KeptCharStartsNoFence(s: string)
    requires s != [] && !StartsWith(s, FENCE)
    ensures !StartsWith([s[0]] + RemoveAll(s[1..], FENCE), FENCE)
  {
    var x := RemoveAll(s[1..], FENCE);
    var r := [s[0]] + x;
    if s[0] != '`' {
      NoFenceAt(r, 0, 0);
    } else if |s| == 1 {
      assert x == [];
    } else if s[1] != '`' {
      FirstCharKept(s[1..]);
      NoFenceAt(r, 0, 1);
    } else {
      TwoBackticksKept(s);
    }
  }

  /** Two backticks open `s` and the third character is not one: the second backtick is
      kept, and what follows it is not a backtick either. */
  lemma TwoBackticksKept(s: string)
    requires |s| >= 2 && s[0] == '`' && s[1] == '`' && !StartsWith(s, FENCE)
    ensures !StartsWith([s[0]] + RemoveAll(s[1..], FENCE), FENCE)
  {
    var x := RemoveAll(s[1..], FENCE);
    var r := [s[0]] + x;
    assert |s| >= 3 ==> s[2] != '`';
    assert !StartsWith(s[1..], FENCE) by {
      if |s| >= 3 {
        NoFenceAt(s[1..], 0, 1);
      }
    }
    assert s[1..][1..] == s[2..];
    assert x == [s[1]] + RemoveAll(s[2..], FENCE);
    if |s| == 2 {
      assert s[2..] == [];
    } else {
      FirstCharKept(s[2..]);
      NoFenceAt(r, 0, 2);
    }
  }

  /** No "```" survives the removal of every "```": the left-to-right scan always removes
      a run of backticks three at a time from its start, so at most two remain of any run. */
  lemma {:induction false} NoFenceAfterRemoval(s: string)
    ensures !Contains(RemoveAll(s, FENCE), FENCE)
    decreases |s|
  {
    if StartsWith(s, FENCE) {
      NoFenceAfterRemoval(TrimStart(s[|FENCE|..]));
    } else if s != [] {
      var x := RemoveAll(s[1..], FENCE);
      NoFenceAfterRemoval(s[1..]);
      var r := [s[0]] + x;
      KeptCharStartsNoFence(s);
      assert r[1..] == x;
    }
  }

  /** The text handed to `JSON.parse` never contains a code fence. */
  lemma CleanedHasNoFence(text: string)
    ensures !Contains(CleanResponse(text), FENCE)
  {
    var unfenced := RemoveAll(RemoveAll(Trim(text), JSON_FENCE), FENCE);
    NoFenceAfterRemoval(RemoveAll(Trim(text), JSON_FENCE));
    SliceJsonKeepsAbsent(unfenced, FENCE);
  }

  /** Cutting down to the braced span cannot bring in a string that was absent. */
  lemma SliceJsonKeepsAbsent(s: string, pat: string)
    requires !Contains(s, pat)
    ensures !Contains(SliceJson(s), pat)
  {
    var jsonStart := IndexOf(s, '{');
    var jsonEnd := LastIndexOf(s, '}');
    if jsonStart.Some? && jsonEnd.Some? && jsonEnd.value > jsonStart.value {
      if Contains(SliceJson(s), pat) {
        ContainsInSlice(s, jsonStart.value, jsonEnd.value + 1, pat);
      }
    }
  }

  /** A reply wrapped in a markdown JSON code block, as models often send despite the
      prompt, reaches `JSON.parse` as exactly the JSON object inside the block. */
  lemma FencedReplyUnwrapped(json: string)
    requires |json| >= 2 && json[0] == '{' && json[|json| - 1] == '}'
    requires !Contains(json, FENCE)
    ensures CleanResponse(JSON_FENCE + "\n" + json + "\n" + FENCE) == json
  {
    var text := JSON_FENCE + "\n" + json + "\n" + FENCE;
    TrimUnchanged(text);
    OpeningFenceRemoved(json);
    ClosingFenceRemoved(json);
    BracedSpanOfLine(json);
  }

  /** The leading "```json" goes with the newline after it; no other "```json" is there. */
  lemma OpeningFenceRemoved(json: string)
    requires |json| >= 2 && json[0] == '{'
    requires !Contains(json, FENCE)
    ensures RemoveAll(JSON_FENCE + "\n" + json + "\n" + FENCE, JSON_FENCE) == json + "\n" + FENCE
  {
    var rest := json + "\n" + FENCE;
    assert JSON_FENCE + "\n" + json + "\n" + FENCE == JSON_FENCE + (['\n'] + rest);
    RemoveAllAtStart(JSON_FENCE, ['\n'] + rest);
    assert rest[0] == '{';
    TrimStartPast('\n', rest);
    NoJsonFenceInReply(json);
    RemoveAllAbsent(rest, JSON_FENCE);
  }

  /** A "```json" would begin with a "```", so none occurs in the reply and the fence after it. */
  lemma NoJsonFenceInReply(json: string)
    requires |json| >= 2 && json[0] == '{'
    requires !Contains(json, FENCE)
    ensures !Contains(json + "\n" + FENCE, JSON_FENCE)
  {
    var rest := json + "\n" + FENCE;
    ContainsIffOccurs(rest, JSON_FENCE);
    if p: nat :| OccursAt(rest, JSON_FENCE, p) {
      assert rest[p..p + 7] == JSON_FENCE;
      assert rest[p + 3] == 'j';
      assert p + 3 <= |json|;
      assert json[p..p + 3] == rest[p..p + 3] == rest[p..p + 7][..3];
      assert JSON_FENCE[..3] == FENCE;
      assert OccursAt(json, FENCE, p);
      ContainsIffOccurs(json, FENCE);
    }
  }

  /** The closing "```" goes; the JSON and the newline before it stay. */
  lemma ClosingFenceRemoved(json: string)
    requires |json| >= 2 && json[|json| - 1] == '}'
    requires !Contains(json, FENCE)
    ensures RemoveAll(json + "\n" + FENCE, FENCE) == json + "\n"
  {
    var a := json + "\n";
    assert json + "\n" + FENCE == a + FENCE;
    NoFenceBeforeClosing(json);
    RemoveAllKeepsPrefix(a, FENCE, FENCE);
    FenceAloneRemoved();
  }

  /** No "```" starts in the JSON or at the newline after it. */
  lemma NoFenceBeforeClosing(json: string)
    requires |json| >= 2 && json[|json| - 1] == '}'
    requires !Contains(json, FENCE)
    ensures forall i: nat :: i < |json| + 1 ==> !OccursAt(json + "\n" + FENCE, FENCE, i)
  {
    var w := json + "\n" + FENCE;
    forall i: nat | i < |json| + 1
      ensures !OccursAt(w, FENCE, i)
    {
      if i + 3 <= |json| {
        if OccursAt(w, FENCE, i) {
          assert json[i..i + 3] == w[i..i + 3];
          assert OccursAt(json, FENCE, i);
          ContainsIffOccurs(json, FENCE);
        }
      } else {
        // Any three characters from here on take in the closing brace or the newline.
        if i == |json| - 2 {
          NoFenceAt(w, i, 1);
        } else {
          NoFenceAt(w, i, 0);
        }
      }
    }
  }

  /** A fence alone is removed entirely. */
  lemma FenceAloneRemoved()
    ensures RemoveAll(FENCE, FENCE) == []
  {
    assert StartsWith(FENCE, FENCE);
    assert FENCE[3..] == [];
  }

  /** The braced span of a JSON object followed by a newline is the object. */
  lemma BracedSpanOfLine(json: string)
    requires |json| >= 2 && json[0] == '{' && json[|json| - 1] == '}'
    ensures SliceJson(json + "\n") == json
  {
    var a := json + "\n";
    assert a[|json| - 1] == '}' && a[|json|] == '\n';
    assert IndexOf(a, '{') == Some(0);
    assert LastIndexOf(a, '}') == Some(|json| - 1);
    assert a[0..|json|] == json;
  }

  // ---------------------------------------------------------------------------------------
  // Providers

  const GEMINI_ENDPOINT :=
    "https://generativelanguage.googleapis.com/v1beta/models/gemini-2.0-flash-exp:generateContent"
  const GEMINI_MODEL := "gemini-2.0-flash-exp"

  function ProviderName(keyId: string): string {
    "Google Gemini (" + keyId + ")"
  }

  function MakeProvider(entry: (string, string)): AIProvider {
    AIProvider(ProviderName(entry.0), GEMINI_ENDPOINT, entry.1, GEMINI_MODEL)
  }

  /** The providers `getGeminiProviders()` builds from the stored keys: one per key whose
      value is not blank, in the keys' order. */
  function GeminiProviders(keys: KeyList): (ps: seq<AIProvider>)
    decreases |keys|
  {
    if keys == [] then []
    else
      var last := keys[|keys| - 1];
      GeminiProviders(keys[..|keys| - 1]) + (if HasText(last.1) then [MakeProvider(last)] else [])
  }

  /** `getGeminiProviders()`, the `forEach` over the stored keys. */
  method GetGeminiProviders(keys: KeyList) returns (providers: seq<AIProvider>)
    ensures providers == GeminiProviders(keys)
  {
    providers := [];
    var i := 0;
    while i < |keys|
      invariant 0 <= i <= |keys|
      invariant providers == GeminiProviders(keys[..i])
    {
      var (keyId, apiKey) := keys[i];
      if HasText(apiKey) {
        providers := providers + [MakeProvider((keyId, apiKey))];
      }
      assert keys[..i + 1][..i] == keys[..i];
      i := i + 1;
    }
    assert keys[..i] == keys;
  }

  /** Building providers respects concatenation, so the providers keep the keys' order. */
  lemma {:induction false} GeminiProvidersAppend(a: KeyList, b: KeyList)
    ensures GeminiProviders(a + b) == GeminiProviders(a) + GeminiProviders(b)
    decreases |b|
  {
    if b == [] {
      assert a + b == a;
    } else {
      assert (a + b)[..|a + b| - 1] == a + b[..|b| - 1];
      GeminiProvidersAppend(a, b[..|b| - 1]);
    }
  }

  /** There are exactly as many providers as working keys, every provider is the provider
      of a working key, and every working key has its provider. */
  lemma {:induction false} GeminiProvidersAreWorkingKeys(keys: KeyList)
    ensures |GeminiProviders(keys)| == GetWorkingKeysCount(keys)
    ensures forall p :: p in GeminiProviders(keys) <==>
              exists i :: 0 <= i < |keys| && HasText(keys[i].1) && p == MakeProvider(keys[i])
    decreases |keys|
  {
    if keys != [] {
      var n := |keys| - 1;
      var init := keys[..n];
      GeminiProvidersAreWorkingKeys(init);
      assert keys == init + [keys[n]];
      WorkingKeysCountAppend(init, [keys[n]]);
      assert GetWorkingKeysCount([keys[n]]) == if HasText(keys[n].1) then 1 else 0 by {
        assert [keys[n]][1..] == [];
      }
      forall p
        ensures p in GeminiProviders(keys) <==>
                exists i :: 0 <= i < |keys| && HasText(keys[i].1) && p == MakeProvider(keys[i])
      {
        if p in GeminiProviders(keys) && p !in GeminiProviders(init) {
          assert HasText(keys[n].1) && p == MakeProvider(keys[n]);
        }
        if i :| 0 <= i < |keys| && HasText(keys[i].1) && p == MakeProvider(keys[i]) {
          if i < n {
            assert init[i] == keys[i];
          }
        }
      }
    }
  }

  /** Provider names tell the key identifiers apart. */
  lemma ProviderNameInjective(a: string, b: string)
    requires ProviderName(a) == ProviderName(b)
    ensures a == b
  {
    var pre := "Google Gemini (";
    assert ProviderName(a)[|pre|..|pre| + |a|] == a;
    assert ProviderName(b)[|pre|..|pre| + |b|] == b;
  }

  /** No two providers share a name. */
  predicate DistinctNames(ps: seq<AIProvider>) {
    forall i, j :: 0 <= i < j < |ps| ==> ps[i].name != ps[j].name
  }

  /** Keys with distinct identifiers give providers with distinct names. */
  lemma {:induction false} GeminiProvidersDistinct(keys: KeyList)
    requires UniqueIds(keys)
    ensures DistinctNames(GeminiProviders(keys))
    decreases |keys|
  {
    if keys != [] {
      var n := |keys| - 1;
      var init := keys[..n];
      assert UniqueIds(init);
      GeminiProvidersDistinct(init);
      var prev := GeminiProviders(init);
      if HasText(keys[n].1) {
        GeminiProvidersAreWorkingKeys(init);
        var last := MakeProvider(keys[n]);
        forall i | 0 <= i < |prev|
          ensures prev[i].name != last.name
        {
          assert prev[i] in prev;
          var j :| 0 <= j < |init| && HasText(init[j].1) && prev[i] == MakeProvider(init[j]);
          if prev[i].name == last.name {
            ProviderNameInjective(init[j].0, keys[n].0);
          }
        }
        assert GeminiProviders(keys) == prev + [last];
      }
    }
  }

  // ---------------------------------------------------------------------------------------
  // Availability filter

  /** `providers.filter(p => p.apiKey && isProviderAvailable(p.name))`: the providers kept and
      the table the checks leave behind (a key that is blank short-circuits the check). */
  function FilterAvailable(failures: FailureTable, ps: seq<AIProvider>, now: int)
    : (r: (seq<AIProvider>, FailureTable))
    ensures forall p :: p in r.0 ==> p in ps
    ensures |r.0| <= |ps|
    decreases |ps|
  {
    if ps == [] then ([], failures)
    else
      var (kept, table) := FilterAvailable(failures, ps[..|ps| - 1], now);
      var p := ps[|ps| - 1];
      if p.apiKey == "" then (kept, table)
      else if Available(table, p.name, now) then (kept + [p], AfterAvailabilityCheck(table, p.name, now))
      else (kept, AfterAvailabilityCheck(table, p.name, now))
  }

  /** The filtering loop, calling the tracker once per provider. */
  method FilterAvailableProviders(tracker: ProviderTracker, ps: seq<AIProvider>, now: int)
    returns (available: seq<AIProvider>)
    modifies tracker
    ensures (available, tracker.failures) == FilterAvailable(old(tracker.failures), ps, now)
  {
    available := [];
    var i := 0;
    while i < |ps|
      invariant 0 <= i <= |ps|
      invariant (available, tracker.failures) == FilterAvailable(old(tracker.failures), ps[..i], now)
    {
      var provider := ps[i];
      assert ps[..i + 1][..i] == ps[..i];
      if provider.apiKey != "" {
        var ok := tracker.IsProviderAvailable(provider.name, now);
        if ok {
          available := available + [provider];
        }
      }
      i := i + 1;
    }
    assert ps[..i] == ps;
  }

  /** The checks touch only the records of the providers checked. */
  lemma {:induction false} FilterLeavesOthers(failures: FailureTable, ps: seq<AIProvider>, now: int, name: string)
    requires forall p :: p in ps ==> p.name != name
    ensures var table := FilterAvailable(failures, ps, now).1;
            (name in table <==> name in failures) && (name in failures ==> table[name] == failures[name])
    decreases |ps|
  {
    if ps != [] {
      var init := ps[..|ps| - 1];
      assert forall p :: p in init ==> p in ps;
      FilterLeavesOthers(failures, init, now, name);
    }
  }

  /** With distinct names the checks do not interfere: a provider is kept exactly when its
      key is not blank and it was available in the table the request started with. */
  lemma {:induction false} FilterAvailableMembers(failures: FailureTable, ps: seq<AIProvider>, now: int)
    requires DistinctNames(ps)
    ensures forall p :: p in FilterAvailable(failures, ps, now).0 <==>
              p in ps && p.apiKey != "" && Available(failures, p.name, now)
    decreases |ps|
  {
    if ps != [] {
      var n := |ps| - 1;
      var init := ps[..n];
      var p := ps[n];
      assert DistinctNames(init);
      FilterAvailableMembers(failures, init, now);
      var (kept, table) := FilterAvailable(failures, init, now);
      assert forall q :: q in init ==> q.name != p.name;
      // The last provider's record is the one the request started with.
      FilterLeavesOthers(failures, init, now, p.name);
      assert Available(table, p.name, now) == Available(failures, p.name, now);
      forall q
        ensures q in FilterAvailable(failures, ps, now).0 <==> q in ps && q.apiKey != "" && Available(failures, q.name, now)
      {
        if q in ps && q != p {
          var i :| 0 <= i < |ps| && ps[i] == q;
          assert q in init;
        }
      }
    }
  }

  /** The providers kept keep their relative order, so they keep distinct names. */
  lemma {:induction false} FilterKeepsDistinct(failures: FailureTable, ps: seq<AIProvider>, now: int)
    requires DistinctNames(ps)
    ensures DistinctNames(FilterAvailable(failures, ps, now).0)
    decreases |ps|
  {
    if ps != [] {
      var n := |ps| - 1;
      var init := ps[..n];
      assert DistinctNames(init);
      FilterKeepsDistinct(failures, init, now);
      var kept := FilterAvailable(failures, init, now).0;
      assert forall q :: q in kept ==> q in init;
      assert forall q :: q in init ==> q.name != ps[n].name;
    }
  }

  // ---------------------------------------------------------------------------------------
  // The request and one provider call

  /** The request body: the prompt alone, or the prompt with the file inline. */
  datatype GeminiRequest =
    | TextOnly(prompt: seq<PromptPart>)
    | Multimodal(prompt: seq<PromptPart>, mimeType: string, data: Buffer)

  /** What the upstream exchange gives back for one provider: a response with its status and
      `candidates[0].content.parts[0].text` ("" when absent), a time-out, or another error. */
  datatype Outcome =
    | Completed(status: nat, text: string)
    | TimedOut
    | Thrown(message: string)

  /** `Math.round(size / (1024 * 1024))` for a byte count. */
  function RoundToMiB(size: nat): (mb: nat)
    ensures 2 * MiB * mb <= 2 * size + MiB < 2 * MiB * (mb + 1)
  {
    (2 * size + MiB) / (2 * MiB)
  }

  function MediaWord(fileType: string): string {
    if StartsWith(fileType, "image/") then "image"
    else if StartsWith(fileType, "video/") then "video"
    else "audio"
  }

  /** What the extended prompt adds: the type, the rounded size and the name of the file. */
  function LargeFileNoteText(fileType: string, fileName: string, size: nat): string {
    var fileSizeMB := NatToString(RoundToMiB(size));
    "\n\nIMPORTANT: This is a large " + fileType + " file (" + fileSizeMB + "MB) that requires analysis.\n" +
    "Based on the file type and size, provide a realistic assessment:\n" +
    "\n" +
    "File Details:\n" +
    "- Original filename: " + (if fileName == "" then "unknown" else fileName) + "\n" +
    "- File type: " + fileType + "\n" +
    "- File size: " + fileSizeMB + "MB\n" +
    "- Processing note: Large file analyzed using heuristic methods\n" +
    "\n" +
    "ANALYSIS GUIDELINES FOR LARGE FILES:\n" +
    "- Large professional media files (>10MB) are typically legitimate content\n" +
    "- High-resolution images, long videos, and uncompressed audio are normal\n" +
    "- File size itself is not an indicator of manipulation\n" +
    "- Focus on probabilistic analysis based on file characteristics\n" +
    "- Provide realistic authenticity scores (70-90% for legitimate large media)\n" +
    "\n" +
    "Please analyze this " + MediaWord(fileType) + " file and provide your assessment."
  }

  /** The request body `callGeminiAPI` sends: the file inline when there is a type and the
      file is at most 15 MiB, a text-only extended prompt for a larger file, and the bare
      prompt when there is no type. */
  function BuildRequest(prompt: seq<PromptPart>, fileBuffer: Buffer, fileType: string, fileName: string)
    : (req: GeminiRequest)
    ensures fileType == "" ==> req == TextOnly(prompt)
    ensures fileType != "" && |fileBuffer| <= MAX_BASE64_SIZE ==> req == Multimodal(prompt, fileType, fileBuffer)
    ensures fileType != "" && |fileBuffer| > MAX_BASE64_SIZE ==>
              req.TextOnly? && |req.prompt| == |prompt| + 1 && req.prompt[..|prompt|] == prompt
              && req.prompt[|prompt|] == LargeFileNote(fileType, fileName, |fileBuffer|)
  {
    if fileType != "" then
      if |fileBuffer| > MAX_BASE64_SIZE then
        TextOnly(prompt + [LargeFileNote(fileType, fileName, |fileBuffer|)])
      else Multimodal(prompt, fileType, fileBuffer)
    else TextOnly(prompt)
  }

  /** The text-only prompt for a large file reads as the prompt followed by the note. */
  lemma LargeFileWording(prompt: seq<PromptPart>, fileBuffer: Buffer, fileType: string, fileName: string)
    requires fileType != "" && |fileBuffer| > MAX_BASE64_SIZE
    ensures PromptText(BuildRequest(prompt, fileBuffer, fileType, fileName).prompt)
            == PromptText(prompt) + PartText(LargeFileNote(fileType, fileName, |fileBuffer|))
  {
    var note := LargeFileNote(fileType, fileName, |fileBuffer|);
    JoinedAppend(prompt, [note], PartText);
    JoinedOne(note, PartText);
  }

  /** A file sent text-only is reported as at least 15 MB, its size rounded to whole MiB. */
  lemma LargeFileSizeReported(size: nat)
    requires size > MAX_BASE64_SIZE
    ensures RoundToMiB(size) >= 15
  {
  }

  function HttpErrorMessage(providerName: string, status: nat): string {
    providerName + " API error: " + NatToString(status)
    + (if status == 413 then " (File too large for processing)"
       else if status == 429 then " (Rate Limited)" else "")
  }

  predicate IsOkStatus(status: nat) {
    200 <= status <= 299
  }

  /** What `callGeminiAPI` returns (Ok) or throws (Err) for an outcome. */
  function CallResult(provider: AIProvider, outcome: Outcome, parseJson: string -> Option<ParsedResponse>)
    : (r: Result<AnalysisResult, string>)
    ensures provider.apiKey == "" ==> r == Err(provider.name + " API key not configured")
    ensures r.Ok? ==> provider.apiKey != "" && outcome.Completed? && IsOkStatus(outcome.status)
                      && outcome.text != "" && r == ParseAIResponse(outcome.text, provider.name, parseJson)
  {
    if provider.apiKey == "" then Err(provider.name + " API key not configured")
    else match outcome
      case Completed(status, text) =>
        if !IsOkStatus(status) then Err(HttpErrorMessage(provider.name, status))
        else if text == "" then Err("No response from " + provider.name)
        else ParseAIResponse(text, provider.name, parseJson)
      case TimedOut => Err(provider.name + " request timed out")
      case Thrown(message) => Err(message)
  }

  /** `callGeminiAPI` records the failure itself when the response status is not 2xx. */
  predicate RecordsInCall(provider: AIProvider, outcome: Outcome) {
    provider.apiKey != "" && outcome.Completed? && !IsOkStatus(outcome.status)
  }

  /** `callGeminiAPI(prompt, provider, fileBuffer, fileType, fileName)`, the request already
      built; `upstream` answers the exchange. */
  method CallGeminiAPI(tracker: ProviderTracker, provider: AIProvider, request: GeminiRequest,
                       upstream: (AIProvider, GeminiRequest) -> Outcome,
                       parseJson: string -> Option<ParsedResponse>, now: int)
    returns (r: Result<AnalysisResult, string>)
    modifies tracker
    ensures r == CallResult(provider, upstream(provider, request), parseJson)
    ensures tracker.failures ==
              if RecordsInCall(provider, upstream(provider, request))
              then RecordFailure(old(tracker.failures), provider.name, now) else old(tracker.failures)
  {
    if provider.apiKey == "" {
      return Err(provider.name + " API key not configured");
    }
    var response := upstream(provider, request);
    match response {
      case Completed(status, text) =>
        if !IsOkStatus(status) {
          var isRateLimit := IsRateLimitError(Some(status), None);
          tracker.RecordProviderFailure(provider.name, now, isRateLimit);
          return Err(HttpErrorMessage(provider.name, status));
        }
        if text == "" {
          return Err("No response from " + provider.name);
        }
        return ParseAIResponse(text, provider.name, parseJson);
      case TimedOut =>
        return Err(provider.name + " request timed out");
      case Thrown(message) =>
        return Err(message);
    }
  }

  /** The dispatcher's catch classifies a 429 as a rate limit from its message alone,
      because the message ends in "(Rate Limited)". */
  lemma RateLimitedMessageClassified(providerName: string)
    ensures IsRateLimitError(None, Some(HttpErrorMessage(providerName, 429)))
  {
    var m := HttpErrorMessage(providerName, 429);
    var head := providerName + " API error: " + NatToString(429);
    assert m == head + " (Rate Limited)";
    var lower := ToLower(m);
    var at := |head| + 2;
    assert lower[at..at + 10] == "rate limit";
    assert OccursAt(lower, "rate limit", at);
    ContainsIffOccurs(lower, "rate limit");
  }

  // ---------------------------------------------------------------------------------------
  // The dispatcher

  /** The table after one failed attempt: `callGeminiAPI` may already have recorded the
      failure, and the dispatcher's catch records it again. */
  function AfterFailedAttempt(failures: FailureTable, provider: AIProvider, outcome: Outcome, now: int): FailureTable {
    var inCall := if RecordsInCall(provider, outcome) then RecordFailure(failures, provider.name, now) else failures;
    RecordFailure(inCall, provider.name, now)
  }

  /** The table after every provider in `ps` has failed in turn. */
  function AfterFailedAttempts(failures: FailureTable, ps: seq<AIProvider>, request: GeminiRequest,
                               upstream: (AIProvider, GeminiRequest) -> Outcome, now: int): FailureTable
    decreases |ps|
  {
    if ps == [] then failures
    else
      var p := ps[|ps| - 1];
      AfterFailedAttempt(AfterFailedAttempts(failures, ps[..|ps| - 1], request, upstream, now), p, upstream(p, request), now)
  }

  /** Whether the call to `p` returns a report. */
  predicate Succeeds(p: AIProvider, request: GeminiRequest,
                     upstream: (AIProvider, GeminiRequest) -> Outcome,
                     parseJson: string -> Option<ParsedResponse>)
  {
    CallResult(p, upstream(p, request), parseJson).Ok?
  }

  /** The position of the first provider whose call succeeds, |ps| when none does. */
  function FirstSuccess(ps: seq<AIProvider>, request: GeminiRequest,
                        upstream: (AIProvider, GeminiRequest) -> Outcome,
                        parseJson: string -> Option<ParsedResponse>): (k: nat)
    ensures k <= |ps|
    ensures forall i :: 0 <= i < k ==> !Succeeds(ps[i], request, upstream, parseJson)
    ensures k < |ps| ==> Succeeds(ps[k], request, upstream, parseJson)
  {
    FirstWhere(ps, 0, p => Succeeds(p, request, upstream, parseJson))
  }

  /** The position of the first element at or after `from` that satisfies `ok`, |xs| when
      there is none. */
  function FirstWhere<T>(xs: seq<T>, from: nat, ok: T -> bool): (k: nat)
    requires from <= |xs|
    ensures from <= k <= |xs|
    ensures forall i :: from <= i < k ==> !ok(xs[i])
    ensures k < |xs| ==> ok(xs[k])
    decreases |xs| - from
  {
    if from == |xs| then from
    else if ok(xs[from]) then from
    else FirstWhere(xs, from + 1, ok)
  }

  datatype Dispatch = Dispatch(result: AnalysisResult, attempted: seq<AIProvider>, failures: FailureTable)

  /** The loop over the available providers for one request: the first report that comes
      back, else the fallback report; the providers called, in order; the failure table
      after the failed attempts. */
  function Attempts(table: FailureTable, available: seq<AIProvider>, request: GeminiRequest, fileType: string,
                    now: int, upstream: (AIProvider, GeminiRequest) -> Outcome,
                    parseJson: string -> Option<ParsedResponse>): Dispatch
  {
    var k := FirstSuccess(available, request, upstream, parseJson);
    var after := AfterFailedAttempts(table, available[..k], request, upstream, now);
    if k < |available| then
      Dispatch(CallResult(available[k], upstream(available[k], request), parseJson).value, available[..k + 1], after)
    else Dispatch(GetFallbackAnalysis(fileType), available, after)
  }

  /** The request `analyzeFile` sends to every provider for a file. */
  function FileRequest(fileType: string, fileName: string, fileBuffer: Buffer): GeminiRequest {
    BuildRequest(GetAnalysisPrompt(fileType, fileName), fileBuffer, fileType, fileName)
  }

  /** What `analyzeFile` returns, which providers it calls and the failure table it leaves,
      for the request built from the file (the same request goes to every provider). */
  function AnalyzeFileSpec(failures: FailureTable, keys: KeyList, request: GeminiRequest, fileType: string,
                           now: int, upstream: (AIProvider, GeminiRequest) -> Outcome,
                           parseJson: string -> Option<ParsedResponse>): Dispatch
  {
    var (available, table) := FilterAvailable(failures, GeminiProviders(keys), now);
    Attempts(table, available, request, fileType, now, upstream, parseJson)
  }

  /** `analyzeFile(fileType, fileName, fileBuffer)` for the stored `keys` at time `now`:
      returns the report and the providers called, in order. */
  method AnalyzeFile(tracker: ProviderTracker, keys: KeyList, fileType: string, fileName: string,
                     fileBuffer: Buffer, now: int,
                     upstream: (AIProvider, GeminiRequest) -> Outcome,
                     parseJson: string -> Option<ParsedResponse>)
    returns (result: AnalysisResult, attempted: seq<AIProvider>)
    modifies tracker
    ensures Dispatch(result, attempted, tracker.failures)
            == AnalyzeFileSpec(old(tracker.failures), keys, FileRequest(fileType, fileName, fileBuffer),
                               fileType, now, upstream, parseJson)
  {
    var prompt := GetAnalysisPrompt(fileType, fileName);
    var providers := GetGeminiProviders(keys);
    var availableProviders := FilterAvailableProviders(tracker, providers, now);
    var request := BuildRequest(prompt, fileBuffer, fileType, fileName);
    result, attempted := TryInOrder(tracker, availableProviders, request, fileType, now, upstream, parseJson);
  }

  /** The dispatcher's loop: each provider in turn until one returns a report, recording a
      failure for every provider whose call throws. */
  method TryInOrder(tracker: ProviderTracker, availableProviders: seq<AIProvider>, request: GeminiRequest,
                    fileType: string, now: int,
                    upstream: (AIProvider, GeminiRequest) -> Outcome,
                    parseJson: string -> Option<ParsedResponse>)
    returns (result: AnalysisResult, attempted: seq<AIProvider>)
    modifies tracker
    ensures Dispatch(result, attempted, tracker.failures)
            == Attempts(old(tracker.failures), availableProviders, request, fileType, now, upstream, parseJson)
  {
    if |availableProviders| == 0 {
      return GetFallbackAnalysis(fileType), [];
    }
    ghost var table := tracker.failures;
    ghost var k := FirstSuccess(availableProviders, request, upstream, parseJson);
    var i := 0;
    while i < |availableProviders|
      invariant 0 <= i <= k
      invariant tracker.failures == AfterFailedAttempts(table, availableProviders[..i], request, upstream, now)
    {
      var provider := availableProviders[i];
      ghost var before := tracker.failures;
      var r := CallGeminiAPI(tracker, provider, request, upstream, parseJson, now);
      if r.Ok? {
        assert i == k;
        return r.value, availableProviders[..i + 1];
      }
      var isRateLimit := IsRateLimitError(None, Some(r.error));
      tracker.RecordProviderFailure(provider.name, now, isRateLimit);
      assert tracker.failures == AfterFailedAttempt(before, provider, upstream(provider, request), now);
      assert availableProviders[..i + 1][..i] == availableProviders[..i];
      i := i + 1;
    }
    assert availableProviders[..i] == availableProviders;
    return GetFallbackAnalysis(fileType), availableProviders;
  }

  /** Without an available provider the fallback report comes back, nobody is called and
      the table is left as the filter left it. */
  lemma NoProviderNoCall(table: FailureTable, request: GeminiRequest, fileType: string, now: int,
                         upstream: (AIProvider, GeminiRequest) -> Outcome,
                         parseJson: string -> Option<ParsedResponse>)
    ensures Attempts(table, [], request, fileType, now, upstream, parseJson)
            == Dispatch(GetFallbackAnalysis(fileType), [], table)
  {
    var none: seq<AIProvider> := [];
    assert FirstSuccess(none, request, upstream, parseJson) == 0;
    assert none[..0] == none;
  }

  /** The providers are called in order, stopping at the first success: the providers
      called are a prefix of the available ones, all but the last of them failed, the last
      one's report is returned when any provider succeeds, and the fallback report is
      returned exactly when every available provider failed. */
  lemma FirstSuccessWins(table: FailureTable, available: seq<AIProvider>, request: GeminiRequest, fileType: string,
                         now: int, upstream: (AIProvider, GeminiRequest) -> Outcome,
                         parseJson: string -> Option<ParsedResponse>)
    ensures var d := Attempts(table, available, request, fileType, now, upstream, parseJson);
            && |d.attempted| <= |available| && d.attempted == available[..|d.attempted|]
            && (forall i :: 0 <= i < |d.attempted| - 1 ==>
                  CallResult(d.attempted[i], upstream(d.attempted[i], request), parseJson).Err?)
            && ((exists i :: 0 <= i < |available| && CallResult(available[i], upstream(available[i], request), parseJson).Ok?)
                ==> var last := d.attempted[|d.attempted| - 1];
                    |d.attempted| > 0 && CallResult(last, upstream(last, request), parseJson) == Ok(d.result))
            && ((forall i :: 0 <= i < |available| ==> CallResult(available[i], upstream(available[i], request), parseJson).Err?)
                ==> d.attempted == available && d.result == GetFallbackAnalysis(fileType))
  {
    var d := Attempts(table, available, request, fileType, now, upstream, parseJson);
    var k := FirstSuccess(available, request, upstream, parseJson);
    if k < |available| {
      assert d.attempted == available[..k + 1];
      assert forall i :: 0 <= i <= k ==> d.attempted[i] == available[i];
      assert Succeeds(available[k], request, upstream, parseJson);
    } else {
      assert d.attempted == available;
      assert forall i :: 0 <= i < |available| ==> !Succeeds(available[i], request, upstream, parseJson);
    }
  }

  /** How much one failed attempt adds to a provider's count: two for a response with a
      non-2xx status (once in `callGeminiAPI`, once in the dispatcher), one otherwise. */
  function FailureWeight(provider: AIProvider, outcome: Outcome): nat {
    if RecordsInCall(provider, outcome) then 2 else 1
  }

  /** With distinct names, failed attempts add each provider's weight to its own count and
      leave every other count as it was. */
  lemma {:induction false} FailedAttemptsCount(failures: FailureTable, ps: seq<AIProvider>, request: GeminiRequest,
                                               upstream: (AIProvider, GeminiRequest) -> Outcome, now: int, name: string)
    requires DistinctNames(ps)
    ensures (forall p :: p in ps ==> p.name != name) ==>
              CountOf(AfterFailedAttempts(failures, ps, request, upstream, now), name) == CountOf(failures, name)
    ensures forall i :: 0 <= i < |ps| && ps[i].name == name ==>
              CountOf(AfterFailedAttempts(failures, ps, request, upstream, now), name)
              == CountOf(failures, name) + FailureWeight(ps[i], upstream(ps[i], request))
    decreases |ps|
  {
    if ps != [] {
      var n := |ps| - 1;
      var init := ps[..n];
      var p := ps[n];
      assert DistinctNames(init);
      FailedAttemptsCount(failures, init, request, upstream, now, name);
      var before := AfterFailedAttempts(failures, init, request, upstream, now);
      var inCall := if RecordsInCall(p, upstream(p, request)) then RecordFailure(before, p.name, now) else before;
      RecordFailureCounts(before, p.name, now);
      RecordFailureCounts(inCall, p.name, now);
      forall i | 0 <= i < |ps| && ps[i].name == name
        ensures CountOf(AfterFailedAttempts(failures, ps, request, upstream, now), name)
                == CountOf(failures, name) + FailureWeight(ps[i], upstream(ps[i], request))
      {
        if i < n {
          assert init[i] == ps[i];
          assert forall q :: q in init ==> q.name != p.name || q == init[i];
        } else {
          assert forall q :: q in init ==> q.name != name;
        }
      }
    }
  }

  /** Per request, among available providers with distinct names: a provider called and
      failed has its count raised by its weight, a provider that succeeded or was never
      called keeps its count from after the filter. */
  lemma DispatchFailureCounts(table: FailureTable, available: seq<AIProvider>, request: GeminiRequest,
                              fileType: string, now: int,
                              upstream: (AIProvider, GeminiRequest) -> Outcome,
                              parseJson: string -> Option<ParsedResponse>, i: nat)
    requires DistinctNames(available) && i < |available|
    ensures var d := Attempts(table, available, request, fileType, now, upstream, parseJson);
            var p := available[i];
            CountOf(d.failures, p.name) ==
              CountOf(table, p.name) +
              (if CallResult(p, upstream(p, request), parseJson).Err? && p in d.attempted
               then FailureWeight(p, upstream(p, request)) else 0)
  {
    var k := FirstSuccess(available, request, upstream, parseJson);
    PrefixFailureCount(table, available, request, upstream, now, k, i);
    CalledAndFailedBeforeFirstSuccess(table, available, request, fileType, now, upstream, parseJson, i);
  }

  /** After the first `k` providers failed, the `i`-th provider's count is raised by its
      weight when it is among them and unchanged otherwise. */
  lemma PrefixFailureCount(table: FailureTable, available: seq<AIProvider>, request: GeminiRequest,
                           upstream: (AIProvider, GeminiRequest) -> Outcome, now: int, k: nat, i: nat)
    requires DistinctNames(available) && i < |available| && k <= |available|
    ensures var p := available[i];
            CountOf(AfterFailedAttempts(table, available[..k], request, upstream, now), p.name)
            == CountOf(table, p.name) + (if i < k then FailureWeight(p, upstream(p, request)) else 0)
  {
    var p := available[i];
    var failed := available[..k];
    assert DistinctNames(failed);
    FailedAttemptsCount(table, failed, request, upstream, now, p.name);
    if i < k {
      assert failed[i] == p;
    } else {
      assert forall q :: q in failed ==> q.name != p.name;
    }
  }

  /** A provider was called and failed exactly when it comes before the first success. */
  lemma CalledAndFailedBeforeFirstSuccess(table: FailureTable, available: seq<AIProvider>, request: GeminiRequest,
                                          fileType: string, now: int,
                                          upstream: (AIProvider, GeminiRequest) -> Outcome,
                                          parseJson: string -> Option<ParsedResponse>, i: nat)
    requires DistinctNames(available) && i < |available|
    ensures var d := Attempts(table, available, request, fileType, now, upstream, parseJson);
            var p := available[i];
            (CallResult(p, upstream(p, request), parseJson).Err? && p in d.attempted)
            <==> i < FirstSuccess(available, request, upstream, parseJson)
  {
    var p := available[i];
    var k := FirstSuccess(available, request, upstream, parseJson);
    var d := Attempts(table, available, request, fileType, now, upstream, parseJson);
    if i < k {
      assert d.attempted[i] == p;
    } else if i > k {
      assert d.attempted == available[..k + 1];
      assert forall q :: q in d.attempted ==> q.name != p.name;
    }
  }

  /** Keys with distinct identifiers give available providers with distinct names, so
      the per-provider counts above apply to every request. */
  lemma AvailableProvidersDistinct(failures: FailureTable, keys: KeyList, now: int)
    requires UniqueIds(keys)
    ensures DistinctNames(FilterAvailable(failures, GeminiProviders(keys), now).0)
  {
    GeminiProvidersDistinct(keys);
    FilterKeepsDistinct(failures, GeminiProviders(keys), now);
  }

  /** One attempt with a provider answering HTTP 429: the fallback report, and a count
      raised by two with the time of the attempt. */
  lemma RateLimitedAttempt(failures: FailureTable, p: AIProvider, request: GeminiRequest, fileType: string,
                           now: int, upstream: (AIProvider, GeminiRequest) -> Outcome,
                           parseJson: string -> Option<ParsedResponse>)
    requires p.apiKey != ""
    requires upstream(p, request).Completed? && upstream(p, request).status == 429
    ensures var d := Attempts(failures, [p], request, fileType, now, upstream, parseJson);
            d.result == GetFallbackAnalysis(fileType) && d.attempted == [p]
            && d.failures == failures[p.name := FailureRecord(CountOf(failures, p.name) + 2, now)]
  {
    RateLimitedCallFails(p, request, upstream, parseJson);
    RateLimitedCounts(failures, p, request, upstream, now);
    assert [p][..1] == [p];
  }

  lemma RateLimitedCallFails(p: AIProvider, request: GeminiRequest, upstream: (AIProvider, GeminiRequest) -> Outcome,
                             parseJson: string -> Option<ParsedResponse>)
    requires p.apiKey != ""
    requires upstream(p, request).Completed? && upstream(p, request).status == 429
    ensures FirstSuccess([p], request, upstream, parseJson) == 1
  {
    assert [p][1..] == [];
  }

  lemma RateLimitedCounts(failures: FailureTable, p: AIProvider, request: GeminiRequest,
                          upstream: (AIProvider, GeminiRequest) -> Outcome, now: int)
    requires p.apiKey != ""
    requires upstream(p, request).Completed? && upstream(p, request).status == 429
    ensures AfterFailedAttempts(failures, [p], request, upstream, now)
            == failures[p.name := FailureRecord(CountOf(failures, p.name) + 2, now)]
  {
    assert [p][..0] == [];
  }

  /** A request served by a single stored key, answered with HTTP 429, while the key is
      available and its record survives the check: the fallback report, and the count
      raised by two. */
  lemma RateLimitedRequest(failures: FailureTable, keyValue: string, request: GeminiRequest, fileType: string,
                           now: int, upstream: (AIProvider, GeminiRequest) -> Outcome,
                           parseJson: string -> Option<ParsedResponse>)
    requires HasText(keyValue)
    requires var p := MakeProvider(("key1", keyValue));
             upstream(p, request).Completed? && upstream(p, request).status == 429
    requires var name := ProviderName("key1");
             Available(failures, name, now) && AfterAvailabilityCheck(failures, name, now) == failures
    ensures var name := ProviderName("key1");
            AnalyzeFileSpec(failures, [("key1", keyValue)], request, fileType, now, upstream, parseJson)
            == Dispatch(GetFallbackAnalysis(fileType), [MakeProvider(("key1", keyValue))],
                        failures[name := FailureRecord(CountOf(failures, name) + 2, now)])
  {
    SingleKeyAvailable(failures, keyValue, now);
    RateLimitedAttempt(failures, MakeProvider(("key1", keyValue)), request, fileType, now, upstream, parseJson);
  }

  /** A single stored key whose provider is available passes the filter alone. */
  lemma SingleKeyAvailable(failures: FailureTable, keyValue: string, now: int)
    requires HasText(keyValue)
    requires var name := ProviderName("key1");
             Available(failures, name, now) && AfterAvailabilityCheck(failures, name, now) == failures
    ensures FilterAvailable(failures, GeminiProviders([("key1", keyValue)]), now)
            == ([MakeProvider(("key1", keyValue))], failures)
  {
    var keys := [("key1", keyValue)];
    var p := MakeProvider(("key1", keyValue));
    assert keys[..0] == [];
    assert GeminiProviders(keys) == [p];
    assert [p][..0] == [];
  }

  /** A single stored key answered with HTTP 429 yields the fallback report and leaves a
      count of 2 for that key, so a second such request within the minute takes the key out
      of rotation for the request after it. */
  lemma RateLimitedKeyScenario(keyValue: string, request: GeminiRequest, fileType: string, t1: int, t2: int, t3: int,
                               upstream: (AIProvider, GeminiRequest) -> Outcome,
                               parseJson: string -> Option<ParsedResponse>)
    requires HasText(keyValue)
    requires var p := MakeProvider(("key1", keyValue));
             upstream(p, request).Completed? && upstream(p, request).status == 429
    requires t1 <= t2 <= t1 + RATE_LIMIT_COOLDOWN && t2 <= t3 <= t2 + RATE_LIMIT_COOLDOWN
    ensures var keys := [("key1", keyValue)];
            var name := ProviderName("key1");
            var d1 := AnalyzeFileSpec(map[], keys, request, fileType, t1, upstream, parseJson);
            var d2 := AnalyzeFileSpec(d1.failures, keys, request, fileType, t2, upstream, parseJson);
            && d1.result == GetFallbackAnalysis(fileType) && CountOf(d1.failures, name) == 2
            && d2.result == GetFallbackAnalysis(fileType) && CountOf(d2.failures, name) == 4
            && !Available(d2.failures, name, t3)
  {
    var name := ProviderName("key1");
    var f1 := map[name := FailureRecord(2, t1)];
    RateLimitedRequest(map[], keyValue, request, fileType, t1, upstream, parseJson);
    assert map[][name := FailureRecord(CountOf(map[], name) + 2, t1)] == f1;
    RateLimitedRequest(f1, keyValue, request, fileType, t2, upstream, parseJson);
  }

  // ---------------------------------------------------------------------------------------
  // Fallback

  const FALLBACK_ASSESSMENT :=
    "Basic analysis indicates likely authentic content, but comprehensive AI analysis requires API configuration for definitive results."

  /** The fallback's indicators for images and videos. */
  const VISUAL_FALLBACK := [
    KeyIndicator("Visual Artifacts", "Natural", "No obvious manipulation artifacts detected in basic analysis."),
    KeyIndicator("Facial & Body Consistency", "Natural", "Anatomical features appear proportional and consistent.")]

  /** The two more a video gets. */
  const VIDEO_FALLBACK := [
    KeyIndicator("Audio-Visual Sync", "Natural", "Audio and visual elements appear synchronized."),
    KeyIndicator("Audio Analysis", "Natural", "Voice patterns show natural human characteristics.")]

  /** The one an audio file gets. */
  const AUDIO_FALLBACK := [
    KeyIndicator("Audio Analysis", "Natural", "Audio shows natural recording characteristics and human voice patterns.")]

  /** Every fallback indicator is "Natural". */
  predicate AllNatural(indicators: seq<KeyIndicator>) {
    forall i :: 0 <= i < |indicators| ==> indicators[i].status == "Natural"
  }

  /** The three fallback lists: two, two and one indicator, all "Natural". */
  lemma FallbackLists()
    ensures |VISUAL_FALLBACK| == 2 && |VIDEO_FALLBACK| == 2 && |AUDIO_FALLBACK| == 1
    ensures AllNatural(VISUAL_FALLBACK) && AllNatural(VIDEO_FALLBACK) && AllNatural(AUDIO_FALLBACK)
  {
  }

  /** Joining two all-"Natural" lists gives one. */
  lemma AllNaturalAppend(a: seq<KeyIndicator>, b: seq<KeyIndicator>)
    requires AllNatural(a) && AllNatural(b)
    ensures AllNatural(a + b)
  {
    assert forall i :: |a| <= i < |a + b| ==> (a + b)[i] == b[i - |a|];
  }

  /** The indicators `getFallbackAnalysis` chooses by media family. */
  function FallbackIndicators(fileType: string): (indicators: seq<KeyIndicator>)
    ensures AllNatural(indicators)
    ensures |indicators| ==
              if StartsWith(fileType, "image/") then 2
              else if StartsWith(fileType, "video/") then 4
              else if StartsWith(fileType, "audio/") then 1
              else 0
  {
    FallbackLists();
    DistinctFamilies(fileType);
    AllNaturalAppend(VISUAL_FALLBACK, VIDEO_FALLBACK);
    AllNaturalAppend(VISUAL_FALLBACK, []);
    if StartsWith(fileType, "image/") || StartsWith(fileType, "video/") then
      VISUAL_FALLBACK + (if StartsWith(fileType, "video/") then VIDEO_FALLBACK else [])
    else if StartsWith(fileType, "audio/") then AUDIO_FALLBACK
    else []
  }

  /** `getFallbackAnalysis(fileType)`: a fixed report, with indicators chosen by media family. */
  function GetFallbackAnalysis(fileType: string): (r: AnalysisResult)
    ensures r.authenticityScore == 82 && r.confidenceLevel == "Medium" && r.top5Factors == []
    ensures r.finalAssessment == FALLBACK_ASSESSMENT
    ensures forall i :: 0 <= i < |r.keyIndicators| ==> r.keyIndicators[i].status == "Natural"
    ensures |r.keyIndicators| ==
              if StartsWith(fileType, "image/") then 2
              else if StartsWith(fileType, "video/") then 4
              else if StartsWith(fileType, "audio/") then 1
              else 0
  {
    AnalysisResult(82, "Medium", FallbackIndicators(fileType), [], FALLBACK_ASSESSMENT)
  }

  /** The fallback report passes the same field checks a model's reply must pass. */
  lemma FallbackIsWellFormed(fileType: string)
    ensures var r := GetFallbackAnalysis(fileType);
            WellFormed(ParsedResponse(Some(r.authenticityScore), Some(r.confidenceLevel), Some(r.keyIndicators),
                                      Some(r.top5Factors), Some(r.finalAssessment)))
  {
  }
}
