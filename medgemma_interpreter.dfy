/** The interpreter of the Hugging Face MedGemma inference API: dispatch on
    the HTTP status, case-sensitive prompt selection, extraction of the
    generated text, tag and sentence findings, the unrounded keyword-mean
    confidence, priority and recommendation by precedence, and the loading
    and fallback reports. */
module MedGemmaInterpreter {
  import opened Text
  import opened Domain
  import Keywords

  // ----- prompts -----

  const XRayPrompt: string := "Please analyze this chest X-ray image. Describe the key findings, assess the cardiomediastinal silhouette, lung fields, and any abnormalities. Provide a clinical interpretation."
  const CTPrompt: string := "Please analyze this CT scan image. Identify anatomical structures, assess for any abnormalities, and provide a radiological interpretation."
  const MRIPrompt: string := "Please analyze this MRI image. Evaluate the signal intensities, anatomical structures, and any pathological findings. Provide a clinical assessment."
  const DermatologyPrompt: string := "Please analyze this dermatological image. Assess the lesion characteristics, morphology, color, borders, and provide a differential diagnosis."
  const SkinPrompt: string := "Please analyze this skin lesion image. Evaluate for asymmetry, border irregularity, color variation, and diameter. Assess malignancy risk."

  /** The prompt dictionary, keyed by the exact type names. */
  const Prompts: seq<(string, string)> := [
    ("X-Ray", XRayPrompt),
    ("CT", CTPrompt),
    ("MRI", MRIPrompt),
    ("Dermatology", DermatologyPrompt),
    ("Skin", SkinPrompt)
  ]

  /** `create_medical_prompt`: an exact, case-sensitive lookup with the
      x-ray prompt as fallback. */
  function CreatePrompt(imageType: string): string {
    LookupOr(Prompts, imageType, XRayPrompt)
  }

  /** Only the five exact names select their prompts; any other spelling
      ("xray", "ct", "skin", ...) gets the x-ray prompt. */
  lemma CreatePromptIsExact(imageType: string)
    ensures imageType == "CT" ==> CreatePrompt(imageType) == CTPrompt
    ensures imageType == "MRI" ==> CreatePrompt(imageType) == MRIPrompt
    ensures imageType == "Dermatology" ==> CreatePrompt(imageType) == DermatologyPrompt
    ensures imageType == "Skin" ==> CreatePrompt(imageType) == SkinPrompt
    ensures imageType !in {"CT", "MRI", "Dermatology", "Skin"} ==> CreatePrompt(imageType) == XRayPrompt
  {
    if imageType == "X-Ray" {
      LookupOrFound(Prompts, imageType, XRayPrompt, 0);
    } else if imageType == "CT" {
      LookupOrFound(Prompts, imageType, XRayPrompt, 1);
    } else if imageType == "MRI" {
      LookupOrFound(Prompts, imageType, XRayPrompt, 2);
    } else if imageType == "Dermatology" {
      LookupOrFound(Prompts, imageType, XRayPrompt, 3);
    } else if imageType == "Skin" {
      LookupOrFound(Prompts, imageType, XRayPrompt, 4);
    } else {
      LookupOrMissing(Prompts, imageType, XRayPrompt);
    }
  }

  // ----- the response body -----

  /** An element of a JSON list answer: a dictionary with or without a
      string `generated_text`, or anything else (a non-dictionary, or a
      dictionary whose `generated_text` is not a string), on which parsing
      raises. */
  datatype HfItem = TextItem(generatedText: Option<string>) | UnusableItem

  /** A decoded JSON answer: a list, or any other value given by its `str`. */
  datatype HfBody = HfList(items: seq<HfItem>) | HfOther(text: string)

  /** The text `parse_medgemma_response` analyses, or None when extracting
      it raises: the first element's `generated_text` (default '') for a
      non-empty list, `str(...)` otherwise. */
  function GeneratedText(body: HfBody): Option<string> {
    match body
    case HfList(items) =>
      if |items| > 0 then
        match items[0]
        case TextItem(t) => Some(t.GetOr(""))
        case UnusableItem => None
      else Some("[]")
    case HfOther(text) => Some(text)
  }

  // ----- findings -----

  const NormalTag: string := "🔬 MedGemma: Normal findings identified"
  const AbnormalTag: string := "⚠️ MedGemma: Potential abnormalities detected"
  const LungTag: string := "🫁 Pulmonary structures analyzed"
  const CardiacTag: string := "❤️ Cardiac assessment completed"
  const LeadPrefix: string := "📋 "
  const DefaultFinding: string := "🔬 MedGemma analysis completed successfully"

  const SentenceTerms: seq<string> := ["finding", "normal", "abnormal", "shows", "appears", "consistent"]

  /** The tag findings, in their fixed order. */
  function TagFindings(textLower: string): seq<string> {
    (if Contains(textLower, "normal") then [NormalTag] else [])
    + (if Contains(textLower, "abnormal") || Contains(textLower, "pathology") then [AbnormalTag] else [])
    + (if Contains(textLower, "lung") then [LungTag] else [])
    + (if Contains(textLower, "heart") || Contains(textLower, "cardiac") then [CardiacTag] else [])
  }

  /** The finding a sentence yields: stripped, longer than 20 characters
      and naming a sentence term. */
  function SentenceFinding(sentence: string): seq<string> {
    var s := Strip(sentence);
    if |s| > 20 && ContainsAny(Lower(s), SentenceTerms) then [LeadPrefix + s] else []
  }

  function SentenceFindings(sentences: seq<string>): seq<string> {
    if sentences == [] then []
    else SentenceFindings(sentences[..|sentences| - 1]) + SentenceFinding(sentences[|sentences| - 1])
  }

  /** The findings `extract_findings` returns. */
  function Findings(text: string): seq<string> {
    var found := TagFindings(Lower(text)) + SentenceFindings(Take(Split(text, '.'), 3));
    if found == [] then [DefaultFinding] else found
  }

  /** The loop of `extract_findings` over the first three '.'-pieces. */
  method CollectSentenceFindings(firstThree: seq<string>) returns (found: seq<string>)
    ensures found == SentenceFindings(firstThree)
  {
    found := [];
    for i := 0 to |firstThree|
      invariant found == SentenceFindings(firstThree[..i])
    {
      assert firstThree[..i + 1][..i] == firstThree[..i];
      var sentence := Strip(firstThree[i]);
      if |sentence| > 20 && ContainsAny(Lower(sentence), SentenceTerms) {
        found := found + [LeadPrefix + sentence];
      }
    }
    assert firstThree[..|firstThree|] == firstThree;
  }

  /** `extract_findings`: the four tag tests, then the first three
      '.'-pieces. */
  method ExtractFindings(text: string) returns (findings: seq<string>)
    ensures findings == Findings(text)
  {
    var lower := Lower(text);
    findings := [];
    if Contains(lower, "normal") {
      findings := findings + [NormalTag];
    }
    if Contains(lower, "abnormal") || Contains(lower, "pathology") {
      findings := findings + [AbnormalTag];
    }
    if Contains(lower, "lung") {
      findings := findings + [LungTag];
    }
    if Contains(lower, "heart") || Contains(lower, "cardiac") {
      findings := findings + [CardiacTag];
    }
    assert findings == TagFindings(lower);
    var sentenceFindings := CollectSentenceFindings(Take(Split(text, '.'), 3));
    findings := findings + sentenceFindings;
    if findings == [] {
      findings := [DefaultFinding];
    }
  }

  lemma {:induction false} SentenceFindingsShape(sentences: seq<string>)
    ensures |SentenceFindings(sentences)| <= |sentences|
    ensures forall f :: f in SentenceFindings(sentences) ==> LeadPrefix <= f
  {
    if sentences != [] {
      SentenceFindingsShape(sentences[..|sentences| - 1]);
    }
  }

  /** The findings are never empty, hold at most four tags followed by at
      most three sentences. */
  lemma FindingsShape(text: string)
    ensures 1 <= |Findings(text)| <= 7
    ensures TagFindings(Lower(text)) <= Findings(text) || Findings(text) == [DefaultFinding]
  {
    SentenceFindingsShape(Take(Split(text, '.'), 3));
  }

  /** Matching is by substring, so a text that says "abnormal" also gets the
      "normal" tag, before the abnormality tag. */
  lemma AbnormalAlsoTagsNormal(text: string)
    requires Contains(Lower(text), "abnormal")
    ensures |TagFindings(Lower(text))| >= 2 && TagFindings(Lower(text))[..2] == [NormalTag, AbnormalTag]
    ensures NormalTag in Findings(text) && AbnormalTag in Findings(text)
  {
    assert "abnormal"[2..8] == "normal";
    ContainsAt("abnormal", "normal", 2);
    ContainsTransitive(Lower(text), "abnormal", "normal");
  }

  // ----- confidence -----

  /** `confidence_keywords`, in insertion order. */
  const ConfidenceKeywords: Keywords.ScoreTable := [
    ("normal", 90), ("clear", 85), ("obvious", 88), ("definite", 92),
    ("possible", 65), ("likely", 75), ("probable", 80),
    ("uncertain", 45), ("unclear", 40)
  ]

  const DefaultConfidence: real := 82.5

  /** `calculate_confidence`: the exact mean of the scores of the keywords
      present, or 82.5. */
  function ConfidenceFromText(text: string): real {
    var scores := Keywords.ScoresPresent(Lower(text), ConfidenceKeywords);
    if scores == [] then DefaultConfidence
    else Keywords.Sum(scores) as real / |scores| as real
  }

  method CalculateConfidence(text: string) returns (confidence: real)
    ensures confidence == ConfidenceFromText(text)
  {
    var scores := Keywords.CollectScores(Lower(text), ConfidenceKeywords);
    confidence := if scores != [] then Keywords.Sum(scores) as real / |scores| as real else 82.5;
  }

  /** The confidence always lies within [40, 92]. */
  lemma ConfidenceBounds(text: string)
    ensures 40.0 <= ConfidenceFromText(text) <= 92.0
  {
    var scores := Keywords.ScoresPresent(Lower(text), ConfidenceKeywords);
    assert Keywords.ScoresWithin(ConfidenceKeywords, 40, 92);
    Keywords.ScoresPresentFacts(Lower(text), ConfidenceKeywords, 40, 92);
    if scores != [] {
      Keywords.MeanBounds(scores, 40, 92);
    }
  }

  // ----- priority and recommendation -----

  const HighTerms: seq<string> := ["emergency", "urgent", "critical", "immediate"]
  const ModerateTerms: seq<string> := ["abnormal", "concern", "follow", "monitor"]
  const Pending: string := "PENDING"

  /** `assess_priority`. */
  function AssessPriority(text: string): string {
    Keywords.Priority(Lower(text), HighTerms, ModerateTerms)
  }

  /** HIGH exactly when a high term occurs, MODERATE exactly when a
      moderate term occurs and no high term does, LOW otherwise. */
  lemma PriorityPrecedence(text: string)
    ensures AssessPriority(text) == Keywords.High <==> ContainsAny(Lower(text), HighTerms)
    ensures AssessPriority(text) == Keywords.Moderate
      <==> !ContainsAny(Lower(text), HighTerms) && ContainsAny(Lower(text), ModerateTerms)
    ensures AssessPriority(text) == Keywords.Low
      <==> !ContainsAny(Lower(text), HighTerms) && !ContainsAny(Lower(text), ModerateTerms)
  {
    Keywords.PriorityIff(Lower(text), HighTerms, ModerateTerms);
  }

  const FollowUpRecommendation: string := "MedGemma recommends clinical follow-up and correlation"
  const RoutineRecommendation: string := "MedGemma suggests routine clinical management"
  const SpecialistRecommendation: string := "MedGemma recommends specialist consultation for detailed assessment"

  /** `extract_recommendation`. */
  function ExtractRecommendation(text: string): string {
    if Contains(Lower(text), "follow") then FollowUpRecommendation
    else if Contains(Lower(text), "normal") then RoutineRecommendation
    else SpecialistRecommendation
  }

  /** Follow-up first, then normal, else specialist; the three messages are
      distinct, so the message tells which condition held. */
  lemma RecommendationPrecedence(text: string)
    ensures ExtractRecommendation(text) == FollowUpRecommendation <==> Contains(Lower(text), "follow")
    ensures ExtractRecommendation(text) == RoutineRecommendation
      <==> !Contains(Lower(text), "follow") && Contains(Lower(text), "normal")
    ensures ExtractRecommendation(text) == SpecialistRecommendation
      <==> !Contains(Lower(text), "follow") && !Contains(Lower(text), "normal")
  {
    assert |FollowUpRecommendation| != |RoutineRecommendation|;
    assert |FollowUpRecommendation| != |SpecialistRecommendation|;
    assert |RoutineRecommendation| != |SpecialistRecommendation|;
  }

  // ----- reports -----

  const RealModel: string := "MedGemma 4B Multimodal (Real)"
  const LoadingModel: string := "MedGemma 4B Multimodal (Loading...)"
  const FallbackModel: string := "MedGemma 4B Multimodal (Fallback)"

  /** `get_loading_response`. */
  function LoadingResponse(imageType: string): Report {
    Report(
      LoadingModel,
      0.0,
      ["🔄 MedGemma model is currently loading on Hugging Face",
       "⏳ Please try again in 30-60 seconds",
       "🤖 Real AI analysis will be available shortly"],
      Pending,
      "Model loading - please retry shortly",
      None,
      [("status", Str("model_loading")), ("message", Str("Hugging Face is initializing MedGemma"))])
  }

  /** `get_fallback_response`. */
  function FallbackResponse(imageType: string): Report {
    Report(
      FallbackModel,
      75.0,
      ["⚠️ Real MedGemma API temporarily unavailable",
       "🔄 Using enhanced demo analysis",
       "🤖 Please check Hugging Face token and try again"],
      Keywords.Moderate,
      "API fallback mode - verify Hugging Face access",
      None,
      [("status", Str("api_fallback")), ("image_type", Str(imageType))])
  }

  /** The report `parse_medgemma_response` builds from a generated text. */
  function ParsedReport(text: string, imageType: string): Report {
    Report(
      RealModel,
      ConfidenceFromText(text),
      Findings(text),
      AssessPriority(text),
      ExtractRecommendation(text),
      Some(text),
      [("image_type", Str(imageType)),
       ("processing_method", Str("Hugging Face API")),
       ("model_source", Str("Google DeepMind")),
       ("api_status", Str("success"))])
  }

  /** What `parse_medgemma_response` returns for a decoded body: the parsed
      report, or the fallback when extracting the text raises. */
  function ParseOutcome(body: HfBody, imageType: string): Report {
    match GeneratedText(body)
    case Some(text) => ParsedReport(text, imageType)
    case None => FallbackResponse(imageType)
  }

  method ParseMedGemmaResponse(body: HfBody, imageType: string) returns (report: Report)
    ensures report == ParseOutcome(body, imageType)
  {
    var text := GeneratedText(body);
    if text.None? {
      return FallbackResponse(imageType);
    }
    var generated := text.value;
    var findings := ExtractFindings(generated);
    var confidence := CalculateConfidence(generated);
    report := Report(
      RealModel, confidence, findings, AssessPriority(generated), ExtractRecommendation(generated), Some(generated),
      [("image_type", Str(imageType)),
       ("processing_method", Str("Hugging Face API")),
       ("model_source", Str("Google DeepMind")),
       ("api_status", Str("success"))]);
  }

  /** The whole of `analyze_medical_image` after the request: the report for
      each way the request can end. A 200 answer whose body is not JSON is a
      `Failure`, as `response.json()` raises inside the same handler. */
  function Dispatch(outcome: Outcome<HfBody>, imageType: string): Report {
    match outcome
    case Response(status, body) =>
      if status == 200 then ParseOutcome(body, imageType)
      else if status == 503 then LoadingResponse(imageType)
      else FallbackResponse(imageType)
    case Timeout(_) => FallbackResponse(imageType)
    case Failure(_) => FallbackResponse(imageType)
  }

  /** `analyze_medical_image`, with the image preparation and the request
      replaced by their outcome. */
  method AnalyzeMedicalImage(outcome: Outcome<HfBody>, imageType: string) returns (report: Report)
    ensures report == Dispatch(outcome, imageType)
  {
    if outcome.Response? && outcome.status == 200 {
      report := ParseMedGemmaResponse(outcome.body, imageType);
    } else if outcome.Response? && outcome.status == 503 {
      report := LoadingResponse(imageType);
    } else {
      report := FallbackResponse(imageType);
    }
  }

  /** Status 200 is parsed, 503 gives the loading report, and every other
      status, a timeout or any exception gives the fallback; the model name
      tells the three apart. */
  lemma DispatchByStatus(outcome: Outcome<HfBody>, imageType: string)
    ensures Dispatch(outcome, imageType).model == RealModel
      <==> outcome.Response? && outcome.status == 200 && GeneratedText(outcome.body).Some?
    ensures Dispatch(outcome, imageType).model == LoadingModel
      <==> outcome.Response? && outcome.status == 503
    ensures Dispatch(outcome, imageType).model == FallbackModel
      <==> !(outcome.Response? && (outcome.status == 503 || (outcome.status == 200 && GeneratedText(outcome.body).Some?)))
    ensures Dispatch(outcome, imageType).model == LoadingModel
      ==> Dispatch(outcome, imageType).confidence == 0.0 && Dispatch(outcome, imageType).priority == Pending
    ensures Dispatch(outcome, imageType).model == FallbackModel
      ==> Dispatch(outcome, imageType).confidence == 75.0 && Dispatch(outcome, imageType).priority == Keywords.Moderate
  {
    ModelNamesDistinct();
    DispatchCases(outcome, imageType);
  }

  /** `Dispatch` by case: the parsed report, the loading report or the
      fallback. */
  lemma DispatchCases(outcome: Outcome<HfBody>, imageType: string)
    ensures var r := Dispatch(outcome, imageType);
      if outcome.Response? && outcome.status == 200 && GeneratedText(outcome.body).Some?
      then r.model == RealModel
      else if outcome.Response? && outcome.status == 503
      then r.model == LoadingModel && r.confidence == 0.0 && r.priority == Pending
      else r.model == FallbackModel && r.confidence == 75.0 && r.priority == Keywords.Moderate
  {
    if outcome.Response? && outcome.status == 200 && GeneratedText(outcome.body).Some? {
      DispatchParsed(outcome.body, imageType);
    } else if outcome.Response? && outcome.status == 503 {
      LoadingShape(imageType);
    } else {
      DispatchFallback(outcome, imageType);
      FallbackShape(imageType);
    }
  }

  lemma DispatchParsed(body: HfBody, imageType: string)
    requires GeneratedText(body).Some?
    ensures Dispatch(Response(200, body), imageType).model == RealModel
  {
    assert ParseOutcome(body, imageType) == ParsedReport(GeneratedText(body).value, imageType);
  }

  lemma DispatchFallback(outcome: Outcome<HfBody>, imageType: string)
    requires !(outcome.Response? && outcome.status == 503)
    requires !(outcome.Response? && outcome.status == 200 && GeneratedText(outcome.body).Some?)
    ensures Dispatch(outcome, imageType) == FallbackResponse(imageType)
  {
  }

  lemma ModelNamesDistinct()
    ensures RealModel != LoadingModel && RealModel != FallbackModel && LoadingModel != FallbackModel
  {
    assert |RealModel| != |LoadingModel| && |RealModel| != |FallbackModel| && |LoadingModel| != |FallbackModel|;
  }

  lemma LoadingShape(imageType: string)
    ensures var r := LoadingResponse(imageType);
      r.model == LoadingModel && r.confidence == 0.0 && r.priority == Pending
  {
  }

  lemma FallbackShape(imageType: string)
    ensures var r := FallbackResponse(imageType);
      r.model == FallbackModel && r.confidence == 75.0 && r.priority == Keywords.Moderate
  {
  }

  /** A parsed report's confidence lies in [40, 92]. */
  lemma ParsedReportConfidence(text: string, imageType: string)
    ensures 40.0 <= ParsedReport(text, imageType).confidence <= 92.0
    ensures |ParsedReport(text, imageType).findings| >= 1
  {
    ConfidenceBounds(text);
    FindingsShape(text);
  }
}
