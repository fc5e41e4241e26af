/** components/analysis-results.tsx: the helpers the results card is rendered from — the
    score's colours, the confidence badge, the indicators shown for the file's family, the
    top five reasons and the breakdown values. Fetching the result and the React state are
    not part of this model. */
module AnalysisResults {
  import opened Wrappers
  import opened Strings
  import opened AiAnalysis
  import PdfGenerator

  // ---------------------------------------------------------------------------------------
  // Score colours

  /** `getScoreColor(score)`. */
  function ScoreColor(score: int): string {
    if score >= 75 then "text-green-600"
    else if score >= 40 then "text-yellow-600"
    else "text-red-600"
  }

  /** `getScoreRingColor(score)`. */
  function ScoreRingColor(score: int): string {
    if score >= 75 then "stroke-green-500"
    else if score >= 40 then "stroke-yellow-500"
    else "stroke-red-500"
  }

  const GREEN_GRADIENT := "from-green-500 to-emerald-600"
  const YELLOW_GRADIENT := "from-yellow-500 to-orange-500"
  const RED_GRADIENT := "from-red-500 to-rose-600"

  /** `getScoreGradient(score)`. */
  function ScoreGradient(score: int): string {
    if score >= 75 then GREEN_GRADIENT
    else if score >= 40 then YELLOW_GRADIENT
    else RED_GRADIENT
  }

  /** The card's text colour, ring and gradient are green, yellow or red together, exactly
      in the band the PDF report uses for the same score. */
  lemma ColorsFollowBand(score: int)
    ensures PdfGenerator.ScoreBand(score) == PdfGenerator.Green <==>
              ScoreColor(score) == "text-green-600" && ScoreRingColor(score) == "stroke-green-500"
              && ScoreGradient(score) == GREEN_GRADIENT
    ensures PdfGenerator.ScoreBand(score) == PdfGenerator.Yellow <==>
              ScoreColor(score) == "text-yellow-600" && ScoreRingColor(score) == "stroke-yellow-500"
              && ScoreGradient(score) == YELLOW_GRADIENT
    ensures PdfGenerator.ScoreBand(score) == PdfGenerator.Red <==>
              ScoreColor(score) == "text-red-600" && ScoreRingColor(score) == "stroke-red-500"
              && ScoreGradient(score) == RED_GRADIENT
  {
    assert "text-green-600"[5] != "text-yellow-600"[5];
    assert "text-green-600"[5] != "text-red-600"[5];
  }

  const GRAY_BADGE := "bg-gray-100 text-gray-800 border-gray-200"

  /** `getConfidenceBadgeColor(confidence)`: green, yellow and red for the three levels the
      analysis gives, gray for any other text. */
  function ConfidenceBadgeColor(confidence: string): (color: string)
    ensures confidence == "High" ==> color == "bg-green-100 text-green-800 border-green-200"
    ensures confidence == "Medium" ==> color == "bg-yellow-100 text-yellow-800 border-yellow-200"
    ensures confidence == "Low" ==> color == "bg-red-100 text-red-800 border-red-200"
    ensures color == GRAY_BADGE <==> confidence !in {"High", "Medium", "Low"}
  {
    assert GRAY_BADGE[5] != "bg-green-100 text-green-800 border-green-200"[5]
           && GRAY_BADGE[5] != "bg-yellow-100 text-yellow-800 border-yellow-200"[5]
           && GRAY_BADGE[5] != "bg-red-100 text-red-800 border-red-200"[5];
    if confidence == "High" then "bg-green-100 text-green-800 border-green-200"
    else if confidence == "Medium" then "bg-yellow-100 text-yellow-800 border-yellow-200"
    else if confidence == "Low" then "bg-red-100 text-red-800 border-red-200"
    else GRAY_BADGE
  }

  // ---------------------------------------------------------------------------------------
  // Indicators

  /** `a` is `b` with some elements left out, the rest in their order. */
  predicate IsSubsequence<T(==)>(a: seq<T>, b: seq<T>)
    decreases |b|
  {
    a == [] || (b != [] && ((a[0] == b[0] && IsSubsequence(a[1..], b[1..])) || IsSubsequence(a, b[1..])))
  }

  /** `indicators.filter(ind => names has ind.name)`. */
  function KeepNamed(indicators: seq<KeyIndicator>, names: set<string>): (kept: seq<KeyIndicator>)
    ensures |kept| <= |indicators|
    ensures forall x :: x in kept <==> x in indicators && x.name in names
    ensures forall x :: multiset(kept)[x] == if x.name in names then multiset(indicators)[x] else 0
    decreases |indicators|
  {
    if indicators == [] then []
    else
      var rest := KeepNamed(indicators[1..], names);
      assert indicators == [indicators[0]] + indicators[1..];
      assert multiset(indicators) == multiset([indicators[0]]) + multiset(indicators[1..]);
      if indicators[0].name in names then [indicators[0]] + rest else rest
  }

  /** The filter keeps the order of what it keeps. */
  lemma {:induction false} KeepNamedInOrder(indicators: seq<KeyIndicator>, names: set<string>)
    ensures IsSubsequence(KeepNamed(indicators, names), indicators)
    decreases |indicators|
  {
    if indicators != [] {
      var rest := KeepNamed(indicators[1..], names);
      KeepNamedInOrder(indicators[1..], names);
      if indicators[0].name in names {
        assert ([indicators[0]] + rest)[1..] == rest;
      } else {
        if rest != [] {
          assert IsSubsequence(rest, indicators[1..]);
        }
      }
    }
  }

  /** Every sequence is a subsequence of itself. */
  lemma {:induction false} SubsequenceOfItself<T>(s: seq<T>)
    ensures IsSubsequence(s, s)
    decreases |s|
  {
    if s != [] {
      SubsequenceOfItself(s[1..]);
    }
  }

  const IMAGE_INDICATORS := {"Visual Artifacts", "Facial & Body Consistency"}
  const AUDIO_INDICATORS := {"Audio Analysis"}

  /** `getRelevantIndicators(indicators, fileType)`: an image keeps its visual-artifact and
      facial indicators, audio keeps its audio indicator, and a video or any other type
      keeps everything; what is kept is always in the original order. */
  function GetRelevantIndicators(indicators: seq<KeyIndicator>, fileType: string): (relevant: seq<KeyIndicator>)
    ensures IsSubsequence(relevant, indicators)
    ensures StartsWith(fileType, "image/") ==>
              forall x :: multiset(relevant)[x] == if x.name in IMAGE_INDICATORS then multiset(indicators)[x] else 0
    ensures !StartsWith(fileType, "image/") && !StartsWith(fileType, "video/") && StartsWith(fileType, "audio/") ==>
              forall x :: multiset(relevant)[x] == if x.name in AUDIO_INDICATORS then multiset(indicators)[x] else 0
    ensures !StartsWith(fileType, "image/") && !StartsWith(fileType, "audio/") ==> relevant == indicators
  {
    if StartsWith(fileType, "image/") then
      KeepNamedInOrder(indicators, IMAGE_INDICATORS);
      KeepNamed(indicators, IMAGE_INDICATORS)
    else if StartsWith(fileType, "video/") then
      SubsequenceOfItself(indicators);
      indicators
    else if StartsWith(fileType, "audio/") then
      KeepNamedInOrder(indicators, AUDIO_INDICATORS);
      KeepNamed(indicators, AUDIO_INDICATORS)
    else
      SubsequenceOfItself(indicators);
      indicators
  }

  /** A video keeps all its indicators even though the audio branch comes later: a type
      cannot start with both "video/" and "audio/". */
  lemma VideoKeepsAll(indicators: seq<KeyIndicator>, fileType: string)
    requires StartsWith(fileType, "video/")
    ensures GetRelevantIndicators(indicators, fileType) == indicators
  {
    assert fileType[..6][0] == 'v';
  }

  /** `relevantIndicators.slice(0, 6)`: the cards rendered, at most six, from the front. */
  function ShownIndicators(relevant: seq<KeyIndicator>): (shown: seq<KeyIndicator>)
    ensures |shown| == if |relevant| < 6 then |relevant| else 6
    ensures shown == relevant[..|shown|]
  {
    if |relevant| < 6 then relevant else relevant[..6]
  }

  // ---------------------------------------------------------------------------------------
  // Gradient stops

  /** The two stop colours of the score ring's gradient. */
  datatype GradientStops = GradientStops(fromColor: string, toColor: string)

  /** `x?.replace(pat, rep) || fallback` for one part: the part with its first `pat`
      replaced, or the fallback when the part is missing or comes out empty. */
  function StopColor(part: Option<string>, pat: string, fallback: string): string {
    if part.None? then fallback
    else
      var replaced := ReplaceFirst(part.value, pat, "stop-");
      if replaced == "" then fallback else replaced
  }

  /** The part at `i` of a split, None past the end. */
  function PartAt(parts: seq<string>, i: nat): Option<string> {
    if i < |parts| then Some(parts[i]) else None
  }

  /** `parseGradientColors(gradientString)` as written: the start colour from the first
      space-separated part and the end colour from the third. */
  function ParseGradientColors(gradientString: string): GradientStops {
    var parts := Split(gradientString, ' ');
    GradientStops(StopColor(PartAt(parts, 0), "from-", "stop-gray-500"),
                  StopColor(PartAt(parts, 2), "to-", "stop-gray-600"))
  }

  /** The same, reading the end colour from the second part, where "to-..." is. */
  function ParseGradientColorsFixed(gradientString: string): GradientStops {
    var parts := Split(gradientString, ' ');
    GradientStops(StopColor(PartAt(parts, 0), "from-", "stop-gray-500"),
                  StopColor(PartAt(parts, 1), "to-", "stop-gray-600"))
  }

  /** No space in `s`. */
  predicate NoSpace(s: string) {
    forall j :: 0 <= j < |s| ==> s[j] != ' '
  }

  /** A gradient class "from-X to-Y" splits into its two classes. */
  lemma GradientParts(x: string, y: string)
    requires NoSpace(x) && NoSpace(y)
    ensures Split("from-" + x + " " + "to-" + y, ' ') == ["from-" + x, "to-" + y]
  {
    var a, b := "from-" + x, "to-" + y;
    assert NoSpace(a) && NoSpace(b);
    assert "from-" + x + " " + "to-" + y == a + [' '] + b;
    SplitFirst(a, ' ', b);
    SplitNone(b, ' ');
  }

  /** As written, a two-class gradient "from-X to-Y" always ends in the gray fallback,
      whatever Y is: the split has no third part. */
  lemma GradientEndLost(x: string, y: string)
    requires NoSpace(x) && NoSpace(y)
    ensures ParseGradientColors("from-" + x + " " + "to-" + y) == GradientStops("stop-" + x, "stop-gray-600")
  {
    GradientParts(x, y);
    ReplacePrefix("from-", x, "stop-");
  }

  /** Reading the second part, "from-X to-Y" becomes the stops X and Y. */
  lemma GradientFixedStops(x: string, y: string)
    requires NoSpace(x) && NoSpace(y)
    ensures ParseGradientColorsFixed("from-" + x + " " + "to-" + y) == GradientStops("stop-" + x, "stop-" + y)
  {
    GradientParts(x, y);
    ReplacePrefix("from-", x, "stop-");
    ReplacePrefix("to-", y, "stop-");
  }

  /** The high-score gradient as its two colours. */
  lemma GreenGradientParts()
    ensures GREEN_GRADIENT == "from-" + "green-500" + " " + "to-" + "emerald-600"
  {
    assert "from-" + "green-500" == "from-green-500";
    assert "to-" + "emerald-600" == "to-emerald-600";
  }

  /** The middle-score gradient as its two colours. */
  lemma YellowGradientParts()
    ensures YELLOW_GRADIENT == "from-" + "yellow-500" + " " + "to-" + "orange-500"
  {
    assert "from-" + "yellow-500" == "from-yellow-500";
    assert "to-" + "orange-500" == "to-orange-500";
  }

  /** The low-score gradient as its two colours. */
  lemma RedGradientParts()
    ensures RED_GRADIENT == "from-" + "red-500" + " " + "to-" + "rose-600"
  {
    assert "from-" + "red-500" == "from-red-500";
    assert "to-" + "rose-600" == "to-rose-600";
  }

  /** The stop classes the six colours give. */
  lemma StopNames()
    ensures "stop-" + "green-500" == "stop-green-500" && "stop-" + "emerald-600" == "stop-emerald-600"
    ensures "stop-" + "yellow-500" == "stop-yellow-500" && "stop-" + "orange-500" == "stop-orange-500"
    ensures "stop-" + "red-500" == "stop-red-500" && "stop-" + "rose-600" == "stop-rose-600"
  {
  }

  /** None of the six colour names holds a space. */
  lemma ColourNamesHaveNoSpace()
    ensures NoSpace("green-500") && NoSpace("emerald-600")
    ensures NoSpace("yellow-500") && NoSpace("orange-500")
    ensures NoSpace("red-500") && NoSpace("rose-600")
  {
  }

  /** On the page, as written: the ring of every score fades to gray-600, never to the
      gradient's own end colour. */
  lemma ScoreRingEndsGray(score: int)
    ensures ParseGradientColors(ScoreGradient(score)).toColor == "stop-gray-600"
  {
    ColourNamesHaveNoSpace();
    if score >= 75 {
      GreenGradientParts();
      GradientEndLost("green-500", "emerald-600");
    } else if score >= 40 {
      YellowGradientParts();
      GradientEndLost("yellow-500", "orange-500");
    } else {
      RedGradientParts();
      GradientEndLost("red-500", "rose-600");
    }
  }

  /** The score ring's two stops, read with the corrected parser: the gradient's own start
      and end colours for the score's band; the start colour is the one the page already
      shows. */
  function ScoreRingStops(score: int): (stops: GradientStops)
    ensures stops.fromColor == ParseGradientColors(ScoreGradient(score)).fromColor
    ensures score >= 75 ==> stops == GradientStops("stop-green-500", "stop-emerald-600")
    ensures 40 <= score < 75 ==> stops == GradientStops("stop-yellow-500", "stop-orange-500")
    ensures score < 40 ==> stops == GradientStops("stop-red-500", "stop-rose-600")
  {
    ColourNamesHaveNoSpace();
    StopNames();
    if score >= 75 then
      GreenGradientParts();
      GradientEndLost("green-500", "emerald-600");
      GradientFixedStops("green-500", "emerald-600");
      ParseGradientColorsFixed(ScoreGradient(score))
    else if score >= 40 then
      YellowGradientParts();
      GradientEndLost("yellow-500", "orange-500");
      GradientFixedStops("yellow-500", "orange-500");
      ParseGradientColorsFixed(ScoreGradient(score))
    else
      RedGradientParts();
      GradientEndLost("red-500", "rose-600");
      GradientFixedStops("red-500", "rose-600");
      ParseGradientColorsFixed(ScoreGradient(score))
  }

  // ---------------------------------------------------------------------------------------
  // Top five reasons

  /** One reason card (its icon is left out). */
  datatype DisplayReason = DisplayReason(title: string, description: string, confidence: int, isPositive: bool)

  /** The analysis's own factors, one card each, in order. */
  function FromFactors(factors: seq<Factor>, score: int): (cards: seq<DisplayReason>)
    ensures |cards| == |factors|
    ensures forall i :: 0 <= i < |factors| ==>
              cards[i].title == factors[i].title && cards[i].description == factors[i].description
              && cards[i].confidence == factors[i].confidence
              && (cards[i].isPositive <==> factors[i].confidence >= 70 && score >= 70)
  {
    seq(|factors|, i requires 0 <= i < |factors| =>
      DisplayReason(factors[i].title, factors[i].description, factors[i].confidence,
                    factors[i].confidence >= 70 && score >= 70))
  }

  const HIGH_CARDS := [
    DisplayReason("Consistent Metadata Patterns", "File metadata shows natural creation patterns without signs of manipulation", 95, true),
    DisplayReason("Natural Visual Artifacts", "Compression artifacts and noise patterns consistent with authentic media", 92, true),
    DisplayReason("Temporal Consistency", "Frame-to-frame consistency indicates natural recording process", 88, true),
    DisplayReason("Authentic Color Grading", "Color distribution and lighting patterns appear naturally captured", 85, true),
    DisplayReason("No AI Generation Markers", "Absence of common AI generation artifacts and signatures", 90, true)]

  const MODERATE_CARDS := [
    DisplayReason("Inconsistent Compression", "Mixed compression levels suggest possible post-processing", 75, false),
    DisplayReason("Subtle Visual Anomalies", "Minor inconsistencies in texture and lighting patterns detected", 68, false),
    DisplayReason("Metadata Irregularities", "Some metadata fields show unexpected values or missing information", 72, false),
    DisplayReason("Processing History", "Evidence of multiple processing steps that could mask manipulation", 65, false),
    DisplayReason("Quality Inconsistencies", "Varying quality levels across different regions of the media", 70, false)]

  const LOW_CARDS := [
    DisplayReason("AI Generation Signatures", "Strong indicators of artificial intelligence generation detected", 85, false),
    DisplayReason("Unnatural Artifacts", "Suspicious visual patterns inconsistent with natural media creation", 88, false),
    DisplayReason("Temporal Inconsistencies", "Frame transitions and motion patterns suggest synthetic generation", 82, false),
    DisplayReason("Metadata Manipulation", "File metadata shows signs of tampering or artificial creation", 90, false),
    DisplayReason("Deepfake Markers", "Multiple indicators consistent with deepfake generation techniques", 87, false)]

  /** The five cards pushed when the analysis has no factors of its own. */
  function FallbackReasons(score: int): (cards: seq<DisplayReason>)
    ensures |cards| == 5
    ensures forall i :: 0 <= i < 5 ==> (cards[i].isPositive <==> score >= 75)
  {
    if score >= 75 then HIGH_CARDS
    else if score >= 40 then MODERATE_CARDS
    else LOW_CARDS
  }

  /** `getTop5Reasons(result)`: the analysis's factors when it has any, else five cards by
      the score's band, all positive in the top band and none positive below it. */
  function GetTop5Reasons(result: AnalysisResult): (cards: seq<DisplayReason>)
    ensures |result.top5Factors| > 0 ==> cards == FromFactors(result.top5Factors, result.authenticityScore)
    ensures |result.top5Factors| == 0 ==>
              |cards| == 5 && forall i :: 0 <= i < 5 ==> (cards[i].isPositive <==> result.authenticityScore >= 75)
  {
    if |result.top5Factors| > 0 then FromFactors(result.top5Factors, result.authenticityScore)
    else FallbackReasons(result.authenticityScore)
  }

  /** Without factors of its own, the card shows the same five reasons, with the same
      confidences, as the PDF report for the same score. */
  lemma FallbackMatchesReport(result: AnalysisResult)
    requires |result.top5Factors| == 0
    ensures |GetTop5Reasons(result)| == |PdfGenerator.GetTop5Reasons(result)|
    ensures forall i :: 0 <= i < 5 ==>
              GetTop5Reasons(result)[i].title == PdfGenerator.GetTop5Reasons(result)[i].title
              && GetTop5Reasons(result)[i].description == PdfGenerator.GetTop5Reasons(result)[i].description
              && GetTop5Reasons(result)[i].confidence == PdfGenerator.GetTop5Reasons(result)[i].confidence
  {
  }

  // ---------------------------------------------------------------------------------------
  // Breakdown

  /** The technical-analysis value: five below the score, not below 0. */
  function TechnicalShown(score: int): (shown: int)
    ensures shown >= 0 && shown >= score - 5
    ensures score >= 5 ==> shown == score - 5
    ensures score <= 5 ==> shown == 0
  {
    if score - 5 > 0 then score - 5 else 0
  }

  /** The pattern-recognition value: three above the score, not above 100. */
  function PatternShown(score: int): (shown: int)
    ensures shown <= 100 && shown <= score + 3
    ensures score <= 97 ==> shown == score + 3
    ensures score >= 97 ==> shown == 100
  {
    if score + 3 < 100 then score + 3 else 100
  }

  /** The card's breakdown shows the values the PDF report prints, all within [0, 100]
      when the score is. */
  lemma BreakdownMatchesReport(score: int)
    ensures TechnicalShown(score) == PdfGenerator.Breakdown(score)[0].1
    ensures PatternShown(score) == PdfGenerator.Breakdown(score)[1].1
    ensures 0 <= score <= 100 ==> 0 <= TechnicalShown(score) <= score <= PatternShown(score) <= 100
  {
  }
}
