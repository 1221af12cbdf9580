/** The clinical service (`/clinical/diagnosis`): it forwards the request to
    the ai-service's differential diagnosis, passes a 200 body through
    unchanged, and maps a timeout to 504 and every other failure to 500. */
module ClinicalService {
  import opened Domain
  import opened Text
  import Differential

  /** The request the service receives and forwards as it is. */
  datatype DiagnosisRequest = DiagnosisRequest(
    symptoms: seq<string>,
    patientHistory: Option<map<string, string>>,
    examFindings: Option<seq<string>>)

  const TimeoutError: HttpError := HttpError(504, "AI service timeout")
  const FailurePrefix: string := "Diagnosis generation failed: "
  const Unavailable: HttpError := HttpError(500, "AI service unavailable")

  /** `generate_diagnosis`, with the call to the ai-service given by how it
      ended. Returns the body posted to `/ai/differential-diagnosis` (the
      request itself, `request.dict()`) and the answer. */
  function GenerateDiagnosis<B>(request: DiagnosisRequest, ai: Outcome<B>): (r: (DiagnosisRequest, Result<B>))
    ensures r.0 == request
    ensures r.1.Ok? <==> ai.Response? && ai.status == 200
  {
    var answer := match ai
      case Timeout(_) => Err(TimeoutError)
      case Failure(message) => Err(HttpError(500, FailurePrefix + message))
      case Response(status, body) =>
        if status != 200 then Err(HttpError(500, FailurePrefix + Unavailable.Describe()))
        else Ok(body);
    (request, answer)
  }

  /** The body is passed through exactly for a 200; a timeout is a 504; a
      non-200 answer is the re-wrapped inner 500; any other failure is a 500
      carrying its message. */
  lemma ErrorMapping<B>(request: DiagnosisRequest, ai: Outcome<B>)
    ensures forall b :: GenerateDiagnosis(request, ai).1 == Ok(b) <==> ai == Response(200, b)
    ensures GenerateDiagnosis(request, ai).1.Err? && GenerateDiagnosis(request, ai).1.error.status == 504 <==> ai.Timeout?
    ensures GenerateDiagnosis(request, ai).1.Err? && GenerateDiagnosis(request, ai).1.error.status == 500
      <==> ai.Failure? || (ai.Response? && ai.status != 200)
    ensures ai.Failure? ==> GenerateDiagnosis(request, ai).1 == Err(HttpError(500, FailurePrefix + ai.message))
  {
  }

  /** A non-200 answer is reported as the re-wrapped inner 500. */
  lemma NonOkStatusDetail<B>(request: DiagnosisRequest, status: nat, body: B)
    requires status != 200
    ensures GenerateDiagnosis(request, Response(status, body)).1
      == Err(HttpError(500, FailurePrefix + "500: " + Unavailable.detail))
  {
    DescribeStatus(Unavailable);
    ConcatAssoc(FailurePrefix, "500: ", Unavailable.detail);
  }

  /** When the ai-service ranks the forwarded symptoms, the service returns
      at most five candidates, most likely first, and the default pair when
      no symptom names a known key. */
  lemma ForwardedDiagnosis(request: DiagnosisRequest, body: Differential.DifferentialResponse)
    requires body.diagnoses == Differential.Ranked(GenerateDiagnosis(request, Response(200, body)).0.symptoms)
    ensures var r := GenerateDiagnosis(request, Response(200, body)).1;
      && r == Ok(body)
      && |r.value.diagnoses| <= Differential.TopCount
      && Differential.SortedDesc(r.value.diagnoses)
    ensures (forall s, j :: s in request.symptoms && 0 <= j < |Differential.CommonDiagnoses|
              ==> !Contains(Lower(s), Differential.CommonDiagnoses[j].key))
      ==> body.diagnoses == [
            Differential.Candidate("General Medical Consultation", 0.60, Routine),
            Differential.Candidate("Viral Syndrome", 0.40, Routine)]
  {
    assert GenerateDiagnosis(request, Response(200, body)).0 == request;
    Differential.RankedIsTopOfPool(request.symptoms);
    if forall s, j :: s in request.symptoms && 0 <= j < |Differential.CommonDiagnoses|
         ==> !Contains(Lower(s), Differential.CommonDiagnoses[j].key) {
      Differential.NoMatchGivesDefault(request.symptoms);
    }
  }
}
