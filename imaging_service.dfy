/** The imaging service: `upload_image` stores the file under a name built
    from the image type, a fresh id and the file's extension, then asks the
    ai-service to analyse it, recording only whether that call succeeded;
    `get_image_analysis` asks the ai-service for an analysis and maps a
    timeout to 504 and every other failure to 500. */
module ImagingService {
  import opened Text
  import opened Domain
  import ImageClassifier

  const MinioUrl: string := "minio:9000"
  const BucketName: string := "medical-images"

  // ----- file extension -----

  /** The index of the last `c` in `s`, or -1 when there is none. */
  function LastIndex(s: string, c: char): (r: int)
    ensures -1 <= r < |s|
    ensures r == -1 <==> c !in s
    ensures r >= 0 ==> s[r] == c
    ensures forall i :: r < i < |s| ==> s[i] != c
  {
    if s == [] then -1
    else if s[|s| - 1] == c then |s| - 1
    else LastIndex(s[..|s| - 1], c)
  }

  /** Whether some character of `s[lo..hi]` is not a dot. */
  predicate HasNonDot(s: string, lo: int, hi: int)
    requires 0 <= lo && hi <= |s|
  {
    exists k :: lo <= k < hi && s[k] != '.'
  }

  /** `os.path.splitext(p)[1]` on POSIX: from the last dot of the last path
      component, when something other than dots comes before that dot in
      the component; otherwise empty. */
  function Extension(p: string): string {
    var sep := LastIndex(p, '/');
    var dot := LastIndex(p, '.');
    if dot > sep && HasNonDot(p, sep + 1, dot) then p[dot..] else ""
  }

  /** The extension is a suffix of the name; it is empty or a dot followed
      by neither dots nor slashes, and it is non-empty exactly when the last
      component has a dot with a non-dot character before it. */
  lemma ExtensionShape(p: string)
    ensures var e := Extension(p);
      && |e| <= |p| && p[|p| - |e|..] == e
      && (e == [] || (e[0] == '.' && forall i :: 1 <= i < |e| ==> e[i] != '.' && e[i] != '/'))
    ensures Extension(p) != [] <==>
      var sep := LastIndex(p, '/');
      var dot := LastIndex(p, '.');
      dot > sep && HasNonDot(p, sep + 1, dot)
  {
    var sep := LastIndex(p, '/');
    var dot := LastIndex(p, '.');
    if dot > sep && HasNonDot(p, sep + 1, dot) {
      var e := p[dot..];
      assert Extension(p) == e;
      assert |p| - |e| == dot;
      assert e[0] == p[dot] == '.';
      forall i | 1 <= i < |e|
        ensures e[i] != '.' && e[i] != '/'
      {
        assert e[i] == p[dot + i];
      }
    } else {
      assert Extension(p) == "";
    }
  }

  /** Leading dots make no extension, and only the last suffix counts. */
  lemma ExtensionExamples()
    ensures Extension("scan.png") == ".png"
    ensures Extension("a.tar.gz") == ".gz"
    ensures Extension(".bashrc") == ""
    ensures Extension("noext") == ""
  {
    PlainExtension();
    LastSuffixOnly();
    LeadingDotOnly();
    assert LastIndex("noext", '.') == -1;
  }

  lemma PlainExtension()
    ensures Extension("scan.png") == ".png"
  {
    var p := "scan.png";
    assert LastIndex(p, '/') == -1;
    assert LastIndex(p, '.') == 4;
    assert p[0] != '.';
    assert p[4..] == ".png";
  }

  lemma LastSuffixOnly()
    ensures Extension("a.tar.gz") == ".gz"
  {
    var p := "a.tar.gz";
    assert LastIndex(p, '/') == -1;
    assert LastIndex(p, '.') == 5;
    assert p[0] != '.';
    assert p[5..] == ".gz";
  }

  lemma LeadingDotOnly()
    ensures Extension(".bashrc") == ""
  {
    var p := ".bashrc";
    assert LastIndex(p, '/') == -1;
    assert LastIndex(p, '.') == 0;
  }

  // ----- upload -----

  /** The object name in the bucket: `image_type/<id><extension>`. */
  function ObjectName(imageType: string, imageId: string, filename: string): string {
    imageType + "/" + imageId + Extension(filename)
  }

  function UploadUrl(objectName: string): string {
    "http://" + MinioUrl + "/" + BucketName + "/" + objectName
  }

  /** How storing the file ended: stored, an `S3Error`, or another
      exception (reading the file, for instance), with its message. */
  datatype StorageResult = Stored | S3Failure(message: string) | OtherFailure(message: string)

  datatype ImageUploadResponse = ImageUploadResponse(
    imageId: string,
    filename: string,
    imageType: string,
    uploadUrl: string,
    analysisStatus: string)

  const Pending: string := "pending"
  const Completed: string := "completed"
  const FailedStatus: string := "failed"

  /** The status recorded for the trigger call: completed for a 200, failed
      for any other status or any exception. */
  function AnalysisStatusFor<B>(ai: Outcome<B>): string {
    if ai.Response? && ai.status == 200 then Completed else FailedStatus
  }

  /** The status is "completed" exactly for a 200, "failed" otherwise, and
      never "pending". */
  lemma AnalysisStatusTriState<B>(ai: Outcome<B>)
    ensures AnalysisStatusFor(ai) == Completed <==> ai.Response? && ai.status == 200
    ensures AnalysisStatusFor(ai) == FailedStatus <==> !(ai.Response? && ai.status == 200)
    ensures AnalysisStatusFor(ai) != Pending
  {
    assert Completed != FailedStatus by { assert |Completed| != |FailedStatus|; }
    assert Pending != FailedStatus && Pending != Completed by {
      assert Pending[0] != FailedStatus[0] && |Pending| != |Completed|;
    }
  }

  /** `upload_image`, with the fresh id, the storage call and the trigger
      call given as inputs. Returns the response or the error, and the
      request sent to the ai-service (none when storing failed). */
  method UploadImage<B>(filename: string, imageType: string, imageId: string, storage: StorageResult, ai: Outcome<B>)
    returns (r: Result<ImageUploadResponse>, aiRequest: Option<ImageClassifier.ImageAnalysisRequest>)
    ensures storage.S3Failure? ==> r == Err(HttpError(500, "Image upload failed: " + storage.message))
    ensures storage.OtherFailure? ==> r == Err(HttpError(500, "Upload processing failed: " + storage.message))
    ensures storage.Stored? <==> r.Ok?
    ensures r.Ok? ==> r.value == ImageUploadResponse(
      imageId, filename, imageType, UploadUrl(ObjectName(imageType, imageId, filename)), AnalysisStatusFor(ai))
    ensures aiRequest == if storage.Stored?
      then Some(ImageClassifier.ImageAnalysisRequest(ObjectName(imageType, imageId, filename), imageType))
      else None
  {
    var extension := Extension(filename);
    var stored := imageId + extension;
    var objectName := imageType + "/" + stored;
    assert objectName == ObjectName(imageType, imageId, filename);
    match storage {
      case S3Failure(message) =>
        return Err(HttpError(500, "Image upload failed: " + message)), None;
      case OtherFailure(message) =>
        return Err(HttpError(500, "Upload processing failed: " + message)), None;
      case Stored =>
    }
    var uploadUrl := "http://" + MinioUrl + "/" + BucketName + "/" + objectName;
    var analysisStatus := Pending;
    aiRequest := Some(ImageClassifier.ImageAnalysisRequest(objectName, imageType));
    match ai {
      case Response(status, _) =>
        if status == 200 {
          analysisStatus := Completed;
        } else {
          analysisStatus := FailedStatus;
        }
      case Timeout(_) =>
        analysisStatus := FailedStatus;
      case Failure(_) =>
        analysisStatus := FailedStatus;
    }
    r := Ok(ImageUploadResponse(imageId, filename, imageType, uploadUrl, analysisStatus));
  }

  /** The stored object lives under its type's folder, is named by the id,
      keeps the file's extension, and the upload URL ends with it. */
  lemma ObjectNaming(imageType: string, imageId: string, filename: string)
    ensures var name := ObjectName(imageType, imageId, filename);
      && name[..|imageType| + 1] == imageType + "/"
      && name[|imageType| + 1..] == imageId + Extension(filename)
      && UploadUrl(name) == "http://minio:9000/medical-images/" + name
  {
    var name := ObjectName(imageType, imageId, filename);
    assert name == (imageType + "/") + (imageId + Extension(filename));
    UploadUrlPrefix(name);
  }

  lemma UploadUrlPrefix(name: string)
    ensures UploadUrl(name) == "http://minio:9000/medical-images/" + name
  {
    assert "http://" + MinioUrl == "http://minio:9000";
    assert "http://minio:9000" + "/" == "http://minio:9000/";
    assert "http://minio:9000/" + BucketName == "http://minio:9000/medical-images";
    assert "http://minio:9000/medical-images" + "/" == "http://minio:9000/medical-images/";
  }

  // ----- analysis retrieval -----

  datatype ImageAnalysisResult = ImageAnalysisResult(
    imageId: string,
    analysis: ImageClassifier.ImageAnalysisDetails,
    confidenceScore: real,
    findings: seq<string>,
    recommendations: seq<string>,
    requiresReview: bool)

  /** The request `get_image_analysis` sends: a fixed path built from the id
      and the fixed type "xray". */
  function AnalysisRequestFor(imageId: string): ImageClassifier.ImageAnalysisRequest {
    ImageClassifier.ImageAnalysisRequest("images/" + imageId + ".jpg", "xray")
  }

  const TimeoutError: HttpError := HttpError(504, "AI analysis timeout")
  const FailurePrefix: string := "Analysis retrieval failed: "
  const Unavailable: HttpError := HttpError(500, "AI analysis service unavailable")

  /** `get_image_analysis`, with the ai-service call given by how it ended;
      a 200 whose body lacks a field is a `Failure` with the `KeyError` text. */
  function GetImageAnalysis(imageId: string, ai: Outcome<ImageClassifier.ImageAnalysisResponse>): (r: Result<ImageAnalysisResult>)
    ensures r.Ok? <==> ai.Response? && ai.status == 200
    ensures r.Ok? ==> r.value.imageId == imageId
  {
    match ai
    case Timeout(_) => Err(TimeoutError)
    case Failure(message) => Err(HttpError(500, FailurePrefix + message))
    case Response(status, body) =>
      if status != 200 then Err(HttpError(500, FailurePrefix + Unavailable.Describe()))
      else Ok(ImageAnalysisResult(imageId, body.analysis, body.confidenceScore, body.findings,
                                  body.recommendations, body.requiresReview))
  }

  /** A result exactly for a 200, 504 exactly for a timeout, 500 for every
      other failure. */
  lemma ErrorMapping(imageId: string, ai: Outcome<ImageClassifier.ImageAnalysisResponse>)
    ensures GetImageAnalysis(imageId, ai).Ok? <==> ai.Response? && ai.status == 200
    ensures GetImageAnalysis(imageId, ai).Err? && GetImageAnalysis(imageId, ai).error.status == 504 <==> ai.Timeout?
    ensures GetImageAnalysis(imageId, ai).Err? && GetImageAnalysis(imageId, ai).error.status == 500
      <==> ai.Failure? || (ai.Response? && ai.status != 200)
  {
  }

  /** A non-200 answer is reported as the re-wrapped inner 500. */
  lemma NonOkStatusDetail(imageId: string, status: nat, body: ImageClassifier.ImageAnalysisResponse)
    requires status != 200
    ensures GetImageAnalysis(imageId, Response(status, body))
      == Err(HttpError(500, FailurePrefix + "500: " + Unavailable.detail))
  {
    DescribeStatus(Unavailable);
    ConcatAssoc(FailurePrefix, "500: ", Unavailable.detail);
  }

  /** On success the id is echoed and the five analysis fields are the
      ai-service's, unchanged. */
  lemma CopiesResult(imageId: string, body: ImageClassifier.ImageAnalysisResponse)
    ensures var r := GetImageAnalysis(imageId, Response(200, body));
      && r.Ok? && r.value.imageId == imageId
      && r.value.analysis == body.analysis
      && r.value.confidenceScore == body.confidenceScore
      && r.value.findings == body.findings
      && r.value.recommendations == body.recommendations
      && r.value.requiresReview == body.requiresReview
  {
  }

  /** When the ai-service answers the fixed request, the analysis is one of
      the x-ray variants: its confidence lies in [0.72, 0.92] and the review
      recommendations come exactly with the review flag. */
  lemma RetrievedAnalysisIsXRay(imageId: string, choice: nat)
    requires choice < |ImageClassifier.XRayVariants|
    ensures choice < |ImageClassifier.TemplatesFor(AnalysisRequestFor(imageId).imageType)|
    ensures var r := GetImageAnalysis(imageId, Response(200, ImageClassifier.AnalyzeImage(AnalysisRequestFor(imageId), choice)));
      && r.Ok?
      && r.value.findings == ImageClassifier.XRayVariants[choice].findings
      && 0.72 <= r.value.confidenceScore <= 0.92
      && (r.value.recommendations == ImageClassifier.ReviewRecommendations <==> r.value.requiresReview)
  {
    ImageClassifier.TemplatesForIsExactWithFallback("xray");
    ImageClassifier.VariantBounds("xray", choice);
    ImageClassifier.ReviewListIffReview(AnalysisRequestFor(imageId), choice);
  }
}
