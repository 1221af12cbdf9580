/** Types shared by the services: the enumerations of the data model, the
    error and result shapes of the HTTP layer, the outcome of a call to
    another service, and the report the image-interpretation back ends return. */
module Domain {
  import Text

  datatype Option<+T> = None | Some(value: T) {
    function GetOr(default: T): T {
      match this
      case Some(v) => v
      case None => default
    }
  }

  /** Triage urgency, CRITICAL > URGENT > ROUTINE. */
  datatype TriageLevel = Critical | Urgent | Routine {
    function Name(): string {
      match this
      case Critical => "critical"
      case Urgent => "urgent"
      case Routine => "routine"
    }
    function Rank(): nat {
      match this
      case Critical => 2
      case Urgent => 1
      case Routine => 0
    }
  }

  datatype ImageType = XRay | Skin | Fundus | CT | MRI {
    function Name(): string {
      match this
      case XRay => "xray"
      case Skin => "skin"
      case Fundus => "fundus"
      case CT => "ct"
      case MRI => "mri"
    }
  }

  datatype UserRole = Patient | Physician | Nurse | Specialist | Admin {
    predicate IsProvider() {
      this == Physician || this == Nurse || this == Specialist
    }
  }

  /** The names of the enumerations are pairwise distinct, so each value is
      recovered from its wire name. */
  lemma NamesDistinct()
    ensures forall a: TriageLevel, b: TriageLevel :: a.Name() == b.Name() ==> a == b
    ensures forall a: ImageType, b: ImageType :: a.Name() == b.Name() ==> a == b
  {
  }

  /** An HTTP error response: status code and `detail`. */
  datatype HttpError = HttpError(status: nat, detail: string) {
    /** `str(e)` of an HTTPException: "<status>: <detail>". */
    function Describe(): string {
      Text.NatToString(status) + ": " + detail
    }
  }

  /** `str(e)` for the status codes the services raise. */
  lemma DescribeStatus(e: HttpError)
    ensures e.status == 400 ==> e.Describe() == "400: " + e.detail
    ensures e.status == 500 ==> e.Describe() == "500: " + e.detail
  {
    assert Text.NatToString(4) == "4" && Text.NatToString(40) == "40";
    assert Text.NatToString(5) == "5" && Text.NatToString(50) == "50";
  }

  datatype Result<+T> = Ok(value: T) | Err(error: HttpError)

  /** What a call to another service produced: a response with its status and
      decoded body, a timeout, or any other exception (with `str(e)`). */
  datatype Outcome<+B> = Response(status: nat, body: B) | Timeout(message: string) | Failure(message: string)

  /** A value inside `technical_details`. */
  datatype DetailValue = Str(text: string) | StrList(items: seq<string>) | Null

  /** The analysis dictionary produced by the image-interpretation back ends. */
  datatype Report = Report(
    model: string,
    confidence: real,
    findings: seq<string>,
    priority: string,
    recommendation: string,
    rawAnalysis: Option<string>,
    details: seq<(string, DetailValue)>)
}
