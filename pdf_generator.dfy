/** lib/pdf-generator.ts: the values the PDF report is written from. The drawing itself
    (jsPDF calls, positions, page breaks) is not part of this model; what is modelled is
    what each section says: the score's colour band and risk text, the three breakdown
    scores, the file name and id as printed, the top five factors and the technical
    details. */
module PdfGenerator {
  import opened Wrappers
  import opened Strings
  import opened AiAnalysis

  /** The three bands every score-dependent choice in the report uses. */
  datatype Band = Green | Yellow | Red

  /** An RGB colour as jsPDF takes it. */
  datatype Rgb = Rgb(r: int, g: int, b: int)

  /** One of the top five factors as printed. */
  datatype Reason = Reason(title: string, description: string, confidence: int)

  const GREEN_RGB := Rgb(34, 197, 94)
  const YELLOW_RGB := Rgb(234, 179, 8)
  const RED_RGB := Rgb(239, 68, 68)

  const LOW_RISK := "Low risk - Content appears authentic with high confidence."
  const MODERATE_RISK := "Moderate risk - Some inconsistencies found that warrant investigation."
  const HIGH_RISK := "High risk - Multiple suspicious indicators identified."

  /** The band of a score: 75 and above, 40 to 74, below 40. */
  function ScoreBand(score: int): (band: Band)
    ensures band == Green <==> score >= 75
    ensures band == Yellow <==> 40 <= score < 75
    ensures band == Red <==> score < 40
  {
    if score >= 75 then Green else if score >= 40 then Yellow else Red
  }

  /** The colour of the printed score. */
  function ScoreColor(score: int): Rgb {
    if score >= 75 then GREEN_RGB
    else if score >= 40 then YELLOW_RGB
    else RED_RGB
  }

  /** The fill colour of the breakdown bars, chosen by the overall score. */
  function BarColor(authenticityScore: int): Rgb {
    if authenticityScore >= 75 then GREEN_RGB
    else if authenticityScore >= 40 then YELLOW_RGB
    else RED_RGB
  }

  /** The risk assessment text. */
  function RiskText(score: int): string {
    if score >= 75 then LOW_RISK
    else if score >= 40 then MODERATE_RISK
    else HIGH_RISK
  }

  function BandColor(band: Band): Rgb {
    match band
    case Green => GREEN_RGB
    case Yellow => YELLOW_RGB
    case Red => RED_RGB
  }

  function BandRisk(band: Band): string {
    match band
    case Green => LOW_RISK
    case Yellow => MODERATE_RISK
    case Red => HIGH_RISK
  }

  /** The score's colour, the bars' colour and the risk text all follow the one band, and
      different bands look and read differently. */
  lemma BandsAgree(score: int)
    ensures ScoreColor(score) == BandColor(ScoreBand(score))
    ensures BarColor(score) == BandColor(ScoreBand(score))
    ensures RiskText(score) == BandRisk(ScoreBand(score))
    ensures forall b1: Band, b2: Band :: b1 != b2 ==> BandColor(b1) != BandColor(b2) && BandRisk(b1) != BandRisk(b2)
  {
  }

  /** A higher score never lands in a worse band. */
  lemma BandMonotone(s1: int, s2: int)
    requires s1 <= s2
    ensures ScoreBand(s1) == Green ==> ScoreBand(s2) == Green
    ensures ScoreBand(s2) == Red ==> ScoreBand(s1) == Red
  {
  }

  /** The "Score Breakdown" items: technical analysis five below the score but not below
      0, pattern recognition three above but not above 100, and the consistency check at
      the score. */
  function Breakdown(score: int): (items: seq<(string, int)>)
    ensures |items| == 3
    ensures items[2].1 == score
    ensures 0 <= score <= 100 ==> items[0].1 <= score <= items[1].1
    ensures 0 <= score <= 100 ==> forall i :: 0 <= i < 3 ==> 0 <= items[i].1 <= 100
  {
    [("Technical Analysis", if score - 5 > 0 then score - 5 else 0),
     ("Pattern Recognition", if score + 3 < 100 then score + 3 else 100),
     ("Consistency Check", score)]
  }

  /** The two outer breakdown items move at most five and three points from the score. */
  lemma BreakdownClose(score: int)
    requires 0 <= score <= 100
    ensures score - 5 <= Breakdown(score)[0].1 <= score
    ensures score <= Breakdown(score)[1].1 <= score + 3
    ensures score >= 5 ==> Breakdown(score)[0].1 == score - 5
    ensures score <= 97 ==> Breakdown(score)[1].1 == score + 3
  {
  }

  /** The file name as printed: names over 40 characters are cut to 40 and end in "...". */
  function DisplayName(fileName: string): (shown: string)
    ensures |fileName| <= 40 ==> shown == fileName
    ensures |fileName| > 40 ==> |shown| == 43 && shown[..40] == fileName[..40] && EndsWith(shown, "...")
  {
    if |fileName| > 40 then
      var shown := fileName[..40] + "...";
      assert shown[..40] == fileName[..40];
      assert shown[|shown| - 3..] == "...";
      shown
    else fileName
  }

  /** `analysisId.slice(-8)`: the last eight characters, or the whole id if it is shorter. */
  function ShortId(analysisId: string): (shown: string)
    ensures |shown| == if |analysisId| < 8 then |analysisId| else 8
    ensures EndsWith(analysisId, shown)
  {
    if |analysisId| < 8 then analysisId else analysisId[|analysisId| - 8..]
  }

  /** A detail is printed green when its status is "Natural" and red otherwise. */
  function StatusColor(status: string): (c: Rgb)
    ensures c == GREEN_RGB <==> status == "Natural"
    ensures c != GREEN_RGB ==> c == RED_RGB
  {
    if status == "Natural" then GREEN_RGB else RED_RGB
  }

  const NATURAL := "Natural"

  /** The two details every fallback starts with: metadata, natural from 70, and
      compression, natural from 60. */
  function BaseDetails(score: int): (details: seq<KeyIndicator>)
    ensures |details| == 2
    ensures details[0].name == "Metadata Analysis" && (details[0].status == NATURAL <==> score >= 70)
    ensures details[1].name == "Compression Patterns" && (details[1].status == NATURAL <==> score >= 60)
  {
    [KeyIndicator(
       "Metadata Analysis",
       if score >= 70 then NATURAL else "Suspicious",
       if score >= 70 then "File metadata shows consistent creation patterns without manipulation signs"
       else "Metadata contains irregularities suggesting possible tampering"),
     KeyIndicator(
       "Compression Patterns",
       if score >= 60 then NATURAL else "Artificial",
       if score >= 60 then "Compression artifacts follow natural encoding patterns"
       else "Unusual compression signatures detected indicating possible AI generation")]
  }

  /** The detail pushed for the type's family, None for a type of none of the three. */
  function FamilyDetail(score: int, fileType: string): (detail: Option<KeyIndicator>)
    ensures detail.Some? <==>
              StartsWith(fileType, "image/") || StartsWith(fileType, "video/") || StartsWith(fileType, "audio/")
    ensures StartsWith(fileType, "image/") ==>
              detail.value.name == "Visual Artifacts" && (detail.value.status == NATURAL <==> score >= 65)
    ensures !StartsWith(fileType, "image/") && StartsWith(fileType, "video/") ==>
              detail.value.name == "Temporal Consistency" && (detail.value.status == NATURAL <==> score >= 70)
    ensures !StartsWith(fileType, "image/") && !StartsWith(fileType, "video/") && StartsWith(fileType, "audio/") ==>
              detail.value.name == "Audio Spectral Analysis" && (detail.value.status == NATURAL <==> score >= 65)
  {
    if StartsWith(fileType, "image/") then
      Some(KeyIndicator(
        "Visual Artifacts",
        if score >= 65 then NATURAL else "Suspicious",
        if score >= 65 then "Visual noise and artifacts consistent with camera capture"
        else "Unnatural visual patterns suggesting synthetic generation"))
    else if StartsWith(fileType, "video/") then
      Some(KeyIndicator(
        "Temporal Consistency",
        if score >= 70 then NATURAL else "Inconsistent",
        if score >= 70 then "Frame-to-frame transitions show natural motion patterns"
        else "Temporal inconsistencies suggest video manipulation or synthesis"))
    else if StartsWith(fileType, "audio/") then
      Some(KeyIndicator(
        "Audio Spectral Analysis",
        if score >= 65 then NATURAL else "Artificial",
        if score >= 65 then "Spectral patterns consistent with natural voice recording"
        else "Spectral anomalies indicating possible voice synthesis"))
    else None
  }

  /** `getTechnicalDetails(result, fileType)`: the first four of the result's indicators
      when it has any; otherwise the metadata and compression details, and one more for an
      image, video or audio type. */
  function GetTechnicalDetails(result: AnalysisResult, fileType: string): (details: seq<KeyIndicator>)
    ensures |result.keyIndicators| > 0 ==>
              |details| == (if |result.keyIndicators| < 4 then |result.keyIndicators| else 4)
              && details == result.keyIndicators[..|details|]
    ensures |result.keyIndicators| == 0 ==>
              |details| == (if StartsWith(fileType, "image/") || StartsWith(fileType, "video/")
                               || StartsWith(fileType, "audio/") then 3 else 2)
              && details[..2] == BaseDetails(result.authenticityScore)
  {
    if |result.keyIndicators| > 0 then
      if |result.keyIndicators| < 4 then result.keyIndicators else result.keyIndicators[..4]
    else
      var baseDetails := BaseDetails(result.authenticityScore);
      match FamilyDetail(result.authenticityScore, fileType)
      case Some(detail) =>
        assert (baseDetails + [detail])[..2] == baseDetails;
        baseDetails + [detail]
      case None => baseDetails
  }

  /** The third fallback detail is chosen by the type's family, with its own threshold:
      65 for images, 70 for videos, 65 for audio; a type of no family gets none. */
  lemma FamilyDetailThresholds(result: AnalysisResult, fileType: string)
    requires |result.keyIndicators| == 0
    ensures StartsWith(fileType, "image/") ==>
              GetTechnicalDetails(result, fileType)[2].name == "Visual Artifacts"
              && (GetTechnicalDetails(result, fileType)[2].status == NATURAL <==> result.authenticityScore >= 65)
    ensures StartsWith(fileType, "video/") ==>
              GetTechnicalDetails(result, fileType)[2].name == "Temporal Consistency"
              && (GetTechnicalDetails(result, fileType)[2].status == NATURAL <==> result.authenticityScore >= 70)
    ensures StartsWith(fileType, "audio/") ==>
              GetTechnicalDetails(result, fileType)[2].name == "Audio Spectral Analysis"
              && (GetTechnicalDetails(result, fileType)[2].status == NATURAL <==> result.authenticityScore >= 65)
  {
    DistinctFamilies(fileType);
    FamilyDetailIsThird(result, fileType);
  }

  /** The third fallback detail, when there is one, is the family's detail. */
  lemma FamilyDetailIsThird(result: AnalysisResult, fileType: string)
    requires |result.keyIndicators| == 0
    ensures FamilyDetail(result.authenticityScore, fileType).Some? ==>
              GetTechnicalDetails(result, fileType)[2] == FamilyDetail(result.authenticityScore, fileType).value
  {
    var details := GetTechnicalDetails(result, fileType);
    var score := result.authenticityScore;
    match FamilyDetail(score, fileType)
    case Some(detail) =>
      assert details == BaseDetails(score) + [detail];
    case None =>
  }

  /** The fallback details depend on the score and the type only, and a failing status
      is never "Natural", so each fallback detail is red exactly below its threshold. */
  lemma FallbackColors(result: AnalysisResult, fileType: string)
    requires |result.keyIndicators| == 0
    ensures StatusColor(GetTechnicalDetails(result, fileType)[0].status) == GREEN_RGB <==> result.authenticityScore >= 70
    ensures StatusColor(GetTechnicalDetails(result, fileType)[1].status) == GREEN_RGB <==> result.authenticityScore >= 60
  {
    BaseDetailsOf(result, fileType);
  }

  /** The fallback starts with the two base details. */
  lemma BaseDetailsOf(result: AnalysisResult, fileType: string)
    requires |result.keyIndicators| == 0
    ensures GetTechnicalDetails(result, fileType)[0] == BaseDetails(result.authenticityScore)[0]
    ensures GetTechnicalDetails(result, fileType)[1] == BaseDetails(result.authenticityScore)[1]
  {
    var details := GetTechnicalDetails(result, fileType);
    assert details[..2][0] == details[0] && details[..2][1] == details[1];
  }

  const HIGH_REASONS := [
    Reason("Consistent Metadata Patterns", "File metadata shows natural creation patterns without signs of manipulation", 95),
    Reason("Natural Visual Artifacts", "Compression artifacts and noise patterns consistent with authentic media", 92),
    Reason("Temporal Consistency", "Frame-to-frame consistency indicates natural recording process", 88),
    Reason("Authentic Color Grading", "Color distribution and lighting patterns appear naturally captured", 85),
    Reason("No AI Generation Markers", "Absence of common AI generation artifacts and signatures", 90)]

  const MODERATE_REASONS := [
    Reason("Inconsistent Compression", "Mixed compression levels suggest possible post-processing", 75),
    Reason("Subtle Visual Anomalies", "Minor inconsistencies in texture and lighting patterns detected", 68),
    Reason("Metadata Irregularities", "Some metadata fields show unexpected values or missing information", 72),
    Reason("Processing History", "Evidence of multiple processing steps that could mask manipulation", 65),
    Reason("Quality Inconsistencies", "Varying quality levels across different regions of the media", 70)]

  const LOW_REASONS := [
    Reason("AI Generation Signatures", "Strong indicators of artificial intelligence generation detected", 85),
    Reason("Unnatural Artifacts", "Suspicious visual patterns inconsistent with natural media creation", 88),
    Reason("Temporal Inconsistencies", "Frame transitions and motion patterns suggest synthetic generation", 82),
    Reason("Metadata Manipulation", "File metadata shows signs of tampering or artificial creation", 90),
    Reason("Deepfake Markers", "Multiple indicators consistent with deepfake generation techniques", 87)]

  /** The five reasons printed for each band. */
  function BandReasons(band: Band): seq<Reason> {
    match band
    case Green => HIGH_REASONS
    case Yellow => MODERATE_REASONS
    case Red => LOW_REASONS
  }

  /** `getTop5Reasons(result)`: one of three fixed lists of five, by the score alone. */
  function GetTop5Reasons(result: AnalysisResult): (reasons: seq<Reason>)
    ensures |reasons| == 5
    ensures forall i :: 0 <= i < 5 ==> 65 <= reasons[i].confidence <= 95
  {
    var score := result.authenticityScore;
    if score >= 75 then HIGH_REASONS
    else if score >= 40 then MODERATE_REASONS
    else LOW_REASONS
  }

  /** The list printed follows the same band as the colour and the risk text, and the
      analysis's own `top5Factors`, indicators and assessment play no part in it. */
  lemma Top5FollowsBand(r1: AnalysisResult, r2: AnalysisResult)
    ensures GetTop5Reasons(r1) == BandReasons(ScoreBand(r1.authenticityScore))
    ensures r1.authenticityScore == r2.authenticityScore ==> GetTop5Reasons(r1) == GetTop5Reasons(r2)
    ensures ScoreBand(r1.authenticityScore) != ScoreBand(r2.authenticityScore) ==>
              GetTop5Reasons(r1)[0] != GetTop5Reasons(r2)[0]
  {
  }
}
