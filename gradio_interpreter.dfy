/** The interpreter of the live Gradio MedGemma demo's free-text answer:
    prompt selection by lower-cased image type, findings from the sentences
    of the answer, a keyword-mean confidence rounded to one decimal, a
    priority and a recommendation by precedence, and the fallback report
    used whenever the call raises. */
module GradioInterpreter {
  import opened Text
  import opened Domain
  import Keywords

  // ----- prompts -----

  const XRayPrompt: string := "Please analyze this chest X-ray image. Describe the key findings, assess the cardiomediastinal silhouette, lung fields, and any abnormalities. Provide a clinical interpretation with confidence level."
  const CTPrompt: string := "Please analyze this CT scan image. Identify anatomical structures, assess for any abnormalities, and provide a radiological interpretation with clinical significance."
  const MRIPrompt: string := "Please analyze this MRI image. Evaluate the signal intensities, anatomical structures, and any pathological findings. Provide a clinical assessment."
  const DermatologyPrompt: string := "Please analyze this dermatological image. Assess the lesion characteristics, morphology, color, borders, and provide a differential diagnosis with recommendations."
  const FundusPrompt: string := "Please analyze this fundus/eye image. Evaluate the optic disc, macula, blood vessels, and any retinal abnormalities. Provide an ophthalmological assessment."

  /** The prompt dictionary, keyed by lower-case type names. */
  const Prompts: seq<(string, string)> := [
    ("xray", XRayPrompt),
    ("x-ray", XRayPrompt),
    ("ct", CTPrompt),
    ("mri", MRIPrompt),
    ("skin", DermatologyPrompt),
    ("dermatology", DermatologyPrompt),
    ("fundus", FundusPrompt)
  ]

  /** `create_medical_prompt`: looked up on the lower-cased type, the x-ray
      prompt otherwise. */
  function CreatePrompt(imageType: string): string {
    LookupOr(Prompts, Lower(imageType), XRayPrompt)
  }

  predicate IsPromptKey(key: string) {
    exists j :: 0 <= j < |Prompts| && Prompts[j].0 == key
  }

  /** The choice ignores letter case; "xray" and "x-ray" share the x-ray
      prompt, "skin" and "dermatology" the dermatology one; every other type
      gets the x-ray prompt. */
  lemma CreatePromptFacts(imageType: string)
    ensures CreatePrompt(imageType) == CreatePrompt(Lower(imageType))
    ensures Lower(imageType) == "xray" || Lower(imageType) == "x-ray" ==> CreatePrompt(imageType) == XRayPrompt
    ensures Lower(imageType) == "skin" || Lower(imageType) == "dermatology" ==> CreatePrompt(imageType) == DermatologyPrompt
    ensures !IsPromptKey(Lower(imageType)) ==> CreatePrompt(imageType) == XRayPrompt
  {
    LowerIdempotent(imageType);
    var key := Lower(imageType);
    if key == "xray" {
      LookupOrFound(Prompts, key, XRayPrompt, 0);
    } else if key == "x-ray" {
      LookupOrFound(Prompts, key, XRayPrompt, 1);
    } else if key == "skin" {
      LookupOrFound(Prompts, key, XRayPrompt, 4);
    } else if key == "dermatology" {
      LookupOrFound(Prompts, key, XRayPrompt, 5);
    } else if !IsPromptKey(key) {
      LookupOrMissing(Prompts, key, XRayPrompt);
    }
  }

  // ----- findings -----

  const MedicalIndicators: seq<string> := [
    "normal", "abnormal", "shows", "indicates", "suggests",
    "finding", "lesion", "mass", "opacity", "infiltrate",
    "heart", "lung", "bone", "tissue", "structure"
  ]

  const IndicatorPrefix: string := "🔬 "
  const LeadPrefix: string := "📋 "
  const DefaultFinding: string := "🤖 MedGemma analysis completed successfully"

  /** `text.replace('\n', '. ').split('.')`. */
  function Sentences(text: string): (r: seq<string>)
    ensures |r| >= 1
  {
    Split(Replace(text, '\n', ". "), '.')
  }

  /** The finding a sentence yields in the first pass, if any: stripped,
      longer than 15 characters and naming a medical indicator. */
  function IndicatorFinding(sentence: string): seq<string> {
    var s := Strip(sentence);
    if |s| > 15 && ContainsAny(Lower(s), MedicalIndicators) then [IndicatorPrefix + s] else []
  }

  function IndicatorFindings(sentences: seq<string>): seq<string> {
    if sentences == [] then []
    else IndicatorFindings(sentences[..|sentences| - 1]) + IndicatorFinding(sentences[|sentences| - 1])
  }

  /** The finding a sentence yields in the second pass: stripped and longer
      than 20 characters. */
  function LeadFinding(sentence: string): seq<string> {
    var s := Strip(sentence);
    if |s| > 20 then [LeadPrefix + s] else []
  }

  function LeadFindings(sentences: seq<string>): seq<string> {
    if sentences == [] then []
    else LeadFindings(sentences[..|sentences| - 1]) + LeadFinding(sentences[|sentences| - 1])
  }

  /** The findings `extract_findings_from_text` returns. */
  function Findings(text: string): seq<string> {
    var ind := IndicatorFindings(Sentences(text));
    if ind != [] then ind
    else
      var lead := LeadFindings(Take(Sentences(text), 3));
      if lead != [] then lead else [DefaultFinding]
  }

  /** `extract_findings_from_text`: the indicator pass over every sentence,
      then, when it found nothing, the pass over the first three. */
  method ExtractFindingsFromText(text: string) returns (findings: seq<string>)
    ensures findings == Findings(text)
  {
    var sentences := Sentences(text);
    findings := IndicatorPass(sentences);
    if findings == [] {
      findings := LeadPass(Take(sentences, 3));
    }
    if findings == [] {
      findings := [DefaultFinding];
    }
  }

  /** The first loop of `extract_findings_from_text`. */
  method IndicatorPass(sentences: seq<string>) returns (findings: seq<string>)
    ensures findings == IndicatorFindings(sentences)
  {
    findings := [];
    for i := 0 to |sentences|
      invariant findings == IndicatorFindings(sentences[..i])
    {
      assert sentences[..i + 1][..i] == sentences[..i];
      var sentence := Strip(sentences[i]);
      if |sentence| > 15 {
        if ContainsAny(Lower(sentence), MedicalIndicators) {
          findings := findings + [IndicatorPrefix + sentence];
        }
      }
    }
    assert sentences[..|sentences|] == sentences;
  }

  /** The fallback loop over the first three sentences. */
  method LeadPass(sentences: seq<string>) returns (findings: seq<string>)
    ensures findings == LeadFindings(sentences)
  {
    findings := [];
    for i := 0 to |sentences|
      invariant findings == LeadFindings(sentences[..i])
    {
      assert sentences[..i + 1][..i] == sentences[..i];
      var sentence := Strip(sentences[i]);
      if |sentence| > 20 {
        findings := findings + [LeadPrefix + sentence];
      }
    }
    assert sentences[..|sentences|] == sentences;
  }

  /** Every first-pass finding is the finding of one of the sentences. */
  lemma {:induction false} IndicatorFindingsFromSentences(sentences: seq<string>, f: string)
    requires f in IndicatorFindings(sentences)
    ensures exists i :: 0 <= i < |sentences| && IndicatorFinding(sentences[i]) == [f]
  {
    var init := sentences[..|sentences| - 1];
    var last := sentences[|sentences| - 1];
    if f in IndicatorFindings(init) {
      IndicatorFindingsFromSentences(init, f);
      var i :| 0 <= i < |init| && IndicatorFinding(init[i]) == [f];
      assert sentences[i] == init[i];
    } else {
      assert f in IndicatorFinding(last);
      assert sentences[|sentences| - 1] == last;
    }
  }

  /** Every qualifying sentence contributes its finding to the first pass. */
  lemma {:induction false} IndicatorFindingsKeepSentences(sentences: seq<string>, i: nat)
    requires i < |sentences|
    ensures forall f :: IndicatorFinding(sentences[i]) == [f] ==> f in IndicatorFindings(sentences)
  {
    var init := sentences[..|sentences| - 1];
    if i < |init| {
      IndicatorFindingsKeepSentences(init, i);
      assert init[i] == sentences[i];
    }
  }

  /** The first pass keeps exactly the qualifying sentences; each finding is
      its sentence, stripped, behind the microscope prefix. */
  lemma IndicatorFindingsMembers(sentences: seq<string>)
    ensures forall f :: (f in IndicatorFindings(sentences)
      <==> exists i :: 0 <= i < |sentences| && IndicatorFinding(sentences[i]) == [f])
  {
    forall f
      ensures f in IndicatorFindings(sentences)
        <==> exists i :: 0 <= i < |sentences| && IndicatorFinding(sentences[i]) == [f]
    {
      if f in IndicatorFindings(sentences) {
        IndicatorFindingsFromSentences(sentences, f);
      }
      if exists i :: 0 <= i < |sentences| && IndicatorFinding(sentences[i]) == [f] {
        var i :| 0 <= i < |sentences| && IndicatorFinding(sentences[i]) == [f];
        IndicatorFindingsKeepSentences(sentences, i);
      }
    }
  }

  lemma {:induction false} LeadFindingsShape(sentences: seq<string>)
    ensures |LeadFindings(sentences)| <= |sentences|
    ensures forall f :: f in LeadFindings(sentences) ==> LeadPrefix <= f && |f| > |LeadPrefix| + 20
  {
    if sentences != [] {
      LeadFindingsShape(sentences[..|sentences| - 1]);
    }
  }

  lemma {:induction false} IndicatorFindingsShape(sentences: seq<string>)
    ensures forall f :: f in IndicatorFindings(sentences) ==> IndicatorPrefix <= f && |f| > |IndicatorPrefix| + 15
  {
    if sentences != [] {
      var init := sentences[..|sentences| - 1];
      var last := sentences[|sentences| - 1];
      assert IndicatorFindings(sentences) == IndicatorFindings(init) + IndicatorFinding(last);
      IndicatorFindingsShape(init);
      IndicatorFindingShape(last);
    }
  }

  lemma IndicatorFindingShape(sentence: string)
    ensures forall f :: f in IndicatorFinding(sentence) ==> IndicatorPrefix <= f && |f| > |IndicatorPrefix| + 15
  {
    var s := Strip(sentence);
    if |s| > 15 && ContainsAny(Lower(s), MedicalIndicators) {
      var f := IndicatorPrefix + s;
      assert f[..|IndicatorPrefix|] == IndicatorPrefix;
    }
  }

  /** The findings are never empty and come from exactly one source: all
      indicator sentences, or at most three lead sentences, or the single
      default line. */
  lemma FindingsShape(text: string)
    ensures |Findings(text)| >= 1
    ensures || (forall f :: f in Findings(text) ==> IndicatorPrefix <= f)
            || (|Findings(text)| <= 3 && forall f :: f in Findings(text) ==> LeadPrefix <= f)
            || Findings(text) == [DefaultFinding]
    ensures IndicatorFindings(Sentences(text)) != [] ==> Findings(text) == IndicatorFindings(Sentences(text))
  {
    var ind := IndicatorFindings(Sentences(text));
    if ind != [] {
      IndicatorFindingsShape(Sentences(text));
      assert Findings(text) == ind;
    } else {
      var lead := LeadFindings(Take(Sentences(text), 3));
      if lead != [] {
        LeadFindingsShape(Take(Sentences(text), 3));
        assert Findings(text) == lead;
      } else {
        assert Findings(text) == [DefaultFinding];
      }
    }
  }

  // ----- confidence -----

  /** `confidence_keywords`, in insertion order. */
  const ConfidenceKeywords: Keywords.ScoreTable := [
    ("normal", 88), ("clear", 85), ("obvious", 90), ("definite", 92),
    ("consistent", 85), ("typical", 80), ("characteristic", 87),
    ("possible", 65), ("likely", 75), ("probable", 80), ("suggests", 78),
    ("uncertain", 45), ("unclear", 40), ("difficult", 50)
  ]

  /** The confidence with no keyword present, in tenths (82.5). */
  const DefaultConfidenceTenths: nat := 825

  /** `round(num / den)` to an integer, ties to the even neighbour: the
      nearest integer to the quotient. */
  function RoundHalfEven(num: nat, den: nat): (r: nat)
    requires den > 0
    ensures -(den as int) <= 2 * (num - r * den) <= den
    ensures 2 * (num - r * den) == den ==> r % 2 == 0
    ensures 2 * (num - r * den) == -(den as int) ==> r % 2 == 0
  {
    var q := num / den;
    var rem := num % den;
    assert num == q * den + rem;
    assert (q + 1) * den == q * den + den;
    if 2 * rem > den then q + 1
    else if 2 * rem < den then q
    else if q % 2 == 0 then q
    else q + 1
  }

  lemma MulMonotone(a: int, b: int, c: nat)
    requires a <= b
    ensures a * c <= b * c
  {
    assert b * c == a * c + (b - a) * c;
  }

  /** Rounding keeps integer bounds of the quotient. */
  lemma RoundBounds(num: nat, den: nat, lo: nat, hi: nat)
    requires den > 0 && lo * den <= num <= hi * den
    ensures lo <= RoundHalfEven(num, den) <= hi
  {
    var r := RoundHalfEven(num, den);
    assert num < (r + 1) * den;
    assert (r - 1) * den < num;
    if r < lo {
      MulMonotone(r + 1, lo, den);
    }
    if r > hi {
      MulMonotone(hi, r - 1, den);
    }
  }

  /** `calculate_confidence_from_text` in tenths: the mean of the scores of
      the keywords present, times ten and rounded half-even, or 825. */
  function ConfidenceTenths(text: string): nat {
    var scores := Keywords.ScoresPresent(Lower(text), ConfidenceKeywords);
    if scores == [] then DefaultConfidenceTenths
    else RoundHalfEven(10 * Keywords.Sum(scores), |scores|)
  }

  function ConfidenceFromText(text: string): real {
    ConfidenceTenths(text) as real / 10.0
  }

  /** `calculate_confidence_from_text`. */
  method CalculateConfidenceFromText(text: string) returns (confidence: real)
    ensures confidence == ConfidenceFromText(text)
  {
    var scores := Keywords.CollectScores(Lower(text), ConfidenceKeywords);
    if scores != [] {
      confidence := RoundHalfEven(10 * Keywords.Sum(scores), |scores|) as real / 10.0;
    } else {
      confidence := 82.5;
    }
  }

  /** The confidence always lies in [40, 92]: a rounded mean of table scores
      stays within the table's range, and the default lies inside it. */
  lemma ConfidenceBounds(text: string)
    ensures 400 <= ConfidenceTenths(text) <= 920
    ensures 40.0 <= ConfidenceFromText(text) <= 92.0
  {
    var scores := Keywords.ScoresPresent(Lower(text), ConfidenceKeywords);
    assert Keywords.ScoresWithin(ConfidenceKeywords, 40, 92);
    Keywords.ScoresPresentFacts(Lower(text), ConfidenceKeywords, 40, 92);
    if scores != [] {
      Keywords.SumBounds(scores, 40, 92);
      RoundBounds(10 * Keywords.Sum(scores), |scores|, 400, 920);
    }
  }

  /** No keyword present gives 82.5; a single keyword gives its own score. */
  lemma ConfidenceOfFewKeywords(text: string)
    ensures Keywords.ScoresPresent(Lower(text), ConfidenceKeywords) == [] ==> ConfidenceTenths(text) == 825
    ensures var scores := Keywords.ScoresPresent(Lower(text), ConfidenceKeywords);
      |scores| == 1 ==> ConfidenceTenths(text) == 10 * scores[0]
  {
    var scores := Keywords.ScoresPresent(Lower(text), ConfidenceKeywords);
    if |scores| == 1 {
      assert scores[..0] == [];
      assert Keywords.Sum(scores) == scores[0];
    }
  }

  // ----- priority and recommendation -----

  const HighTerms: seq<string> := ["emergency", "urgent", "critical", "immediate", "acute"]
  const ModerateTerms: seq<string> := ["abnormal", "concern", "follow", "monitor", "lesion"]

  /** `assess_priority_from_text`. */
  function AssessPriority(text: string): string {
    Keywords.Priority(Lower(text), HighTerms, ModerateTerms)
  }

  /** HIGH exactly when a high term occurs, MODERATE exactly when a
      moderate term occurs and no high term does, LOW otherwise. */
  lemma PriorityPrecedence(text: string)
    ensures AssessPriority(text) == Keywords.High <==> ContainsAny(Lower(text), HighTerms)
    ensures AssessPriority(text) == Keywords.Moderate
      <==> !ContainsAny(Lower(text), HighTerms) && ContainsAny(Lower(text), ModerateTerms)
    ensures AssessPriority(text) == Keywords.Low
      <==> !ContainsAny(Lower(text), HighTerms) && !ContainsAny(Lower(text), ModerateTerms)
  {
    Keywords.PriorityIff(Lower(text), HighTerms, ModerateTerms);
  }

  const FollowUpRecommendation: string := "MedGemma recommends clinical follow-up and correlation with symptoms"
  const RoutineRecommendation: string := "MedGemma suggests routine clinical management"
  const SpecialistRecommendation: string := "MedGemma recommends specialist consultation"
  const DefaultRecommendation: string := "MedGemma suggests clinical correlation and appropriate follow-up"

  /** `extract_recommendation_from_text`: the first branch whose terms occur. */
  function ExtractRecommendation(text: string): string {
    var t := Lower(text);
    if Contains(t, "follow") || Contains(t, "correlation") then FollowUpRecommendation
    else if Contains(t, "normal") && Contains(t, "routine") then RoutineRecommendation
    else if Contains(t, "specialist") || Contains(t, "referral") then SpecialistRecommendation
    else DefaultRecommendation
  }

  /** The four messages are distinct, so the message tells which branch
      fired; each branch wins exactly when its terms occur and no earlier
      branch's do. */
  lemma RecommendationPrecedence(text: string)
    ensures var t := Lower(text);
      && (ExtractRecommendation(text) == FollowUpRecommendation <==> Contains(t, "follow") || Contains(t, "correlation"))
      && (ExtractRecommendation(text) == RoutineRecommendation
          <==> !(Contains(t, "follow") || Contains(t, "correlation")) && Contains(t, "normal") && Contains(t, "routine"))
      && (ExtractRecommendation(text) == SpecialistRecommendation <==>
            && !(Contains(t, "follow") || Contains(t, "correlation"))
            && !(Contains(t, "normal") && Contains(t, "routine"))
            && (Contains(t, "specialist") || Contains(t, "referral")))
  {
    assert |FollowUpRecommendation| != |RoutineRecommendation|;
    assert |FollowUpRecommendation| != |SpecialistRecommendation|;
    assert |FollowUpRecommendation| != |DefaultRecommendation|;
    assert |RoutineRecommendation| != |SpecialistRecommendation|;
    assert |RoutineRecommendation| != |DefaultRecommendation|;
    assert |SpecialistRecommendation| != |DefaultRecommendation|;
  }

  // ----- reports -----

  const LiveModel: string := "MedGemma 4B IT (Live Demo)"
  const FallbackModel: string := "MedGemma 4B IT (Fallback)"
  const DemoUrl: string := "https://warshanks-medgemma-4b-it.hf.space/"
  const ErrorPrefix: string := "🔧 Error: "

  /** `get_fallback_response`: at most the first 100 characters of the
      error, followed by "...". */
  function FallbackResponse(imageType: string, errorMessage: string): Report {
    Report(
      FallbackModel,
      75.0,
      ["⚠️ Live MedGemma demo temporarily unavailable",
       ErrorPrefix + Take(errorMessage, 100) + "...",
       "🔄 Please try again shortly"],
      Keywords.Moderate,
      "Live demo fallback - please retry analysis",
      None,
      [("status", Str("gradio_fallback")), ("image_type", Str(imageType)), ("demo_url", Str(DemoUrl))])
  }

  /** The error line of the fallback holds the start of the message, cut at
      100 characters; a message of at most 100 characters is kept whole. */
  lemma FallbackErrorLine(imageType: string, errorMessage: string)
    ensures var line := FallbackResponse(imageType, errorMessage).findings[1];
      && |line| == |ErrorPrefix| + Min(100, |errorMessage|) + 3
      && line[|ErrorPrefix|..|line| - 3] <= errorMessage
      && (|errorMessage| <= 100 ==> line == ErrorPrefix + errorMessage + "...")
    ensures FallbackResponse(imageType, errorMessage).confidence == 75.0
    ensures FallbackResponse(imageType, errorMessage).priority == Keywords.Moderate
  {
    var line := FallbackResponse(imageType, errorMessage).findings[1];
    assert line[|ErrorPrefix|..|line| - 3] == Take(errorMessage, 100);
  }

  /** What the demo returned: a falsy value, or the text of a truthy one. */
  datatype PredictResult = Falsy | Truthy(text: string)

  /** How the call to the demo ended: with a result, or with an exception
      (connection, file handling or the remote call), given by its message. */
  datatype GradioCall = Predicted(result: PredictResult) | Raised(error: string)

  /** The text analysed: `str(result)`, or "No analysis available" when the
      result is falsy. */
  function AnalysisText(result: PredictResult): string {
    match result
    case Falsy => "No analysis available"
    case Truthy(text) => text
  }

  /** The report `parse_gradio_response` builds from a text. */
  function ParsedReport(text: string, imageType: string): Report {
    Report(
      LiveModel,
      ConfidenceFromText(text),
      Findings(text),
      AssessPriority(text),
      ExtractRecommendation(text),
      Some(text),
      [("image_type", Str(imageType)),
       ("processing_method", Str("Gradio Live Demo")),
       ("model_source", Str("Google DeepMind via HuggingFace Space")),
       ("api_status", Str("success")),
       ("demo_url", Str(DemoUrl))])
  }

  /** `parse_gradio_response`. */
  method ParseGradioResponse(result: PredictResult, imageType: string) returns (report: Report)
    ensures report == ParsedReport(AnalysisText(result), imageType)
  {
    var text := if result.Truthy? then result.text else "No analysis available";
    var findings := ExtractFindingsFromText(text);
    var confidence := CalculateConfidenceFromText(text);
    report := Report(
      LiveModel, confidence, findings, AssessPriority(text), ExtractRecommendation(text), Some(text),
      [("image_type", Str(imageType)),
       ("processing_method", Str("Gradio Live Demo")),
       ("model_source", Str("Google DeepMind via HuggingFace Space")),
       ("api_status", Str("success")),
       ("demo_url", Str(DemoUrl))]);
  }

  /** The report `analyze_medical_image` returns for a call that ended
      as `call`: a result is parsed; any exception gives the fallback report
      carrying the exception's message. */
  function AnalysisOf(imageType: string, call: GradioCall): Report {
    match call
    case Predicted(result) => ParsedReport(AnalysisText(result), imageType)
    case Raised(error) => FallbackResponse(imageType, error)
  }

  /** `analyze_medical_image`, with the connection, the temporary file and
      the remote call replaced by how the call ended. */
  method AnalyzeMedicalImage(imageType: string, call: GradioCall) returns (report: Report)
    ensures report == AnalysisOf(imageType, call)
  {
    match call
    case Predicted(result) =>
      report := ParseGradioResponse(result, imageType);
    case Raised(error) =>
      report := FallbackResponse(imageType, error);
  }

  /** A parsed report and a fallback report are told apart by the model
      name, and a parsed report always holds findings and a confidence in
      [40, 92]. */
  lemma ParsedReportFacts(text: string, imageType: string, errorMessage: string)
    ensures ParsedReport(text, imageType) != FallbackResponse(imageType, errorMessage)
    ensures |ParsedReport(text, imageType).findings| >= 1
    ensures 40.0 <= ParsedReport(text, imageType).confidence <= 92.0
  {
    assert |LiveModel| != |FallbackModel|;
    FindingsShape(text);
    ConfidenceBounds(text);
  }
}
