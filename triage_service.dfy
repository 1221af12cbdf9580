/** The triage service (`/triage/analyze`): it forwards the consultation's
    symptoms to the ai-service, copies the result under the consultation's
    id, and maps a timeout to 504 and every other failure to 500. */
module TriageService {
  import opened Domain
  import opened Text
  import SymptomTriage

  /** The request the service receives. */
  datatype TriageRequest = TriageRequest(
    consultationId: nat,
    symptoms: seq<string>,
    medicalHistory: Option<seq<string>>,
    vitalSigns: Option<map<string, real>>)

  /** The response it returns. */
  datatype TriageResponse = TriageResponse(
    consultationId: nat,
    triageLevel: TriageLevel,
    triageScore: real,
    assessment: SymptomTriage.Assessment,
    recommendations: seq<string>,
    confidence: real)

  const TimeoutError: HttpError := HttpError(504, "AI service timeout")
  const FailurePrefix: string := "Triage analysis failed: "

  /** The HTTPException raised inside the handler for a non-200 answer;
      the generic handler catches it and re-wraps its text. */
  const Unavailable: HttpError := HttpError(500, "AI service unavailable")

  /** The body sent to `/ai/analyze-symptoms`. */
  function AiRequestFor(request: TriageRequest): (r: SymptomTriage.SymptomAnalysisRequest)
    ensures r.symptoms == request.symptoms
    ensures r.medicalHistory == request.medicalHistory
    ensures r.vitalSigns == request.vitalSigns
  {
    SymptomTriage.SymptomAnalysisRequest(request.symptoms, request.medicalHistory, request.vitalSigns)
  }

  /** `analyze_triage`, with the call to the ai-service given by how it
      ended. A 200 whose body lacks a field is a `Failure` carrying the
      `KeyError` text. */
  function AnalyzeTriage(request: TriageRequest, ai: Outcome<SymptomTriage.SymptomAnalysisResponse>): (r: Result<TriageResponse>)
    ensures r.Ok? <==> ai.Response? && ai.status == 200
    ensures r.Ok? ==> r.value.consultationId == request.consultationId
  {
    match ai
    case Timeout(_) => Err(TimeoutError)
    case Failure(message) => Err(HttpError(500, FailurePrefix + message))
    case Response(status, body) =>
      if status != 200 then Err(HttpError(500, FailurePrefix + Unavailable.Describe()))
      else Ok(TriageResponse(request.consultationId, body.triageLevel, body.triageScore,
                             body.assessment, body.recommendations, body.confidence))
  }

  /** A result exactly for a 200; 504 exactly for a timeout; 500 for every
      other failure, so a timeout is never mistaken for another failure. */
  lemma ErrorMapping(request: TriageRequest, ai: Outcome<SymptomTriage.SymptomAnalysisResponse>)
    ensures AnalyzeTriage(request, ai).Ok? <==> ai.Response? && ai.status == 200
    ensures AnalyzeTriage(request, ai).Err? && AnalyzeTriage(request, ai).error.status == 504 <==> ai.Timeout?
    ensures AnalyzeTriage(request, ai).Err? && AnalyzeTriage(request, ai).error.status == 500
      <==> ai.Failure? || (ai.Response? && ai.status != 200)
    ensures AnalyzeTriage(request, ai).Err? && AnalyzeTriage(request, ai).error.status == 500 ==>
      FailurePrefix <= AnalyzeTriage(request, ai).error.detail
  {
  }

  /** A non-200 answer is reported as the re-wrapped inner 500. */
  lemma NonOkStatusDetail(request: TriageRequest, status: nat, body: SymptomTriage.SymptomAnalysisResponse)
    requires status != 200
    ensures AnalyzeTriage(request, Response(status, body))
      == Err(HttpError(500, FailurePrefix + "500: " + Unavailable.detail))
  {
    DescribeStatus(Unavailable);
    ConcatAssoc(FailurePrefix, "500: ", Unavailable.detail);
  }

  /** On success the consultation's id comes from the request and every
      other field is the ai-service's, unchanged. */
  lemma CopiesResult(request: TriageRequest, body: SymptomTriage.SymptomAnalysisResponse)
    ensures var r := AnalyzeTriage(request, Response(200, body));
      && r.Ok?
      && r.value.consultationId == request.consultationId
      && r.value.triageLevel == body.triageLevel
      && r.value.triageScore == body.triageScore
      && r.value.assessment == body.assessment
      && r.value.recommendations == body.recommendations
      && r.value.confidence == body.confidence
  {
  }

  /** When the ai-service answers the forwarded request, the service's
      score lies in [0, 1] and its recommendations are the fixed list of its
      level. The two requires are what `SymptomTriage.AnalyzeSymptoms`
      ensures of its response (its score and its recommendations), so the
      second conjunct states that the copy keeps that promise. */
  lemma ForwardedAnalysis(request: TriageRequest, body: SymptomTriage.SymptomAnalysisResponse)
    requires body.triageScore == SymptomTriage.HistoryScore(
      SymptomTriage.FirstMax(SymptomTriage.Matches(AiRequestFor(request).symptoms)).score,
      SymptomTriage.RiskCount(AiRequestFor(request).medicalHistory.GetOr([])))
    requires body.recommendations == SymptomTriage.RecommendationsFor(body.triageLevel)
    ensures var r := AnalyzeTriage(request, Response(200, body));
      && r.Ok?
      && 0.0 <= r.value.triageScore <= 1.0
      && r.value.recommendations == SymptomTriage.RecommendationsFor(r.value.triageLevel)
  {
    SymptomTriage.BaseScoreBounds(request.symptoms);
  }
}
