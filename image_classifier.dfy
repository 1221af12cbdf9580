/** The ai-service's image template classifier (`/ai/analyze-image`): the
    category is looked up by exact image type with the x-ray templates as
    fallback, one variant of the category is picked, and the recommendations
    follow the variant's review flag. */
module ImageClassifier {
  import opened Text

  datatype Variant = Variant(name: string, findings: seq<string>, confidence: real, requiresReview: bool)

  /** The x-ray variants, in the order `list(templates.keys())` lists them. */
  const XRayVariants: seq<Variant> := [
    Variant("normal", ["Clear lung fields", "Normal cardiac silhouette", "No acute findings"], 0.92, false),
    Variant("pneumonia", ["Consolidation in right lower lobe", "Possible infectious process"], 0.78, true),
    Variant("fracture", ["Possible fracture line visible", "Bone displacement noted"], 0.85, true)
  ]

  const SkinVariants: seq<Variant> := [
    Variant("normal", ["Normal skin appearance", "No concerning lesions"], 0.88, false),
    Variant("suspicious", ["Irregular pigmentation", "Asymmetric borders", "Requires dermatology review"], 0.72, true)
  ]

  /** `IMAGE_ANALYSIS_TEMPLATES`: category name and its variants. */
  const ImageTemplates: seq<(string, seq<Variant>)> := [("xray", XRayVariants), ("skin", SkinVariants)]

  const ReviewRecommendations: seq<string> := [
    "Radiologist review recommended",
    "Clinical correlation advised",
    "Follow-up imaging may be needed"
  ]

  const RoutineRecommendations: seq<string> := [
    "No immediate follow-up required",
    "Continue current management",
    "Repeat if clinically indicated"
  ]

  datatype ImageAnalysisRequest = ImageAnalysisRequest(imagePath: string, imageType: string)

  /** The `analysis` dictionary of the response. */
  datatype ImageAnalysisDetails = ImageAnalysisDetails(
    imageType: string,
    qualityAssessment: string,
    anatomicalStructures: seq<string>,
    pathologicalFindings: seq<string>,
    technicalFactors: string)

  datatype ImageAnalysisResponse = ImageAnalysisResponse(
    analysis: ImageAnalysisDetails,
    confidenceScore: real,
    findings: seq<string>,
    recommendations: seq<string>,
    requiresReview: bool)

  /** The lookup in the two-category table, case by case. */
  lemma LookupTemplates(imageType: string)
    ensures LookupOr(ImageTemplates, imageType, XRayVariants)
      == if imageType == "skin" then SkinVariants else XRayVariants
  {
    if imageType == "xray" {
      LookupOrFound(ImageTemplates, imageType, XRayVariants, 0);
    } else if imageType == "skin" {
      LookupOrFound(ImageTemplates, imageType, XRayVariants, 1);
    } else {
      LookupOrMissing(ImageTemplates, imageType, XRayVariants);
    }
  }

  /** The variants for an image type: the exact category, or x-ray. */
  function TemplatesFor(imageType: string): (r: seq<Variant>)
    ensures r == SkinVariants || r == XRayVariants
  {
    LookupTemplates(imageType);
    LookupOr(ImageTemplates, imageType, XRayVariants)
  }

  /** The lookup is exact and case-sensitive: "skin" selects the skin
      variants and every other type ("Skin", "ct", "" included) the x-ray ones. */
  lemma TemplatesForIsExactWithFallback(imageType: string)
    ensures imageType == "skin" <==> TemplatesFor(imageType) == SkinVariants
    ensures imageType != "skin" <==> TemplatesFor(imageType) == XRayVariants
  {
    LookupTemplates(imageType);
    assert XRayVariants != SkinVariants by {
      assert |XRayVariants| != |SkinVariants|;
    }
  }

  function RecommendationsFor(requiresReview: bool): seq<string> {
    if requiresReview then ReviewRecommendations else RoutineRecommendations
  }

  /** `analyze_image` with the delay dropped and the random pick of a variant
      passed in as its index among the category's variants. */
  function AnalyzeImage(request: ImageAnalysisRequest, choice: nat): (r: ImageAnalysisResponse)
    requires choice < |TemplatesFor(request.imageType)|
    ensures var v := TemplatesFor(request.imageType)[choice];
      r.findings == v.findings && r.confidenceScore == v.confidence && r.requiresReview == v.requiresReview
    ensures r.analysis.pathologicalFindings == r.findings
    ensures r.analysis.imageType == request.imageType
    ensures r.recommendations == RecommendationsFor(r.requiresReview)
  {
    var v := TemplatesFor(request.imageType)[choice];
    ImageAnalysisResponse(
      ImageAnalysisDetails(
        request.imageType,
        "Good image quality, adequate for interpretation",
        ["Clearly visible", "Adequate positioning"],
        v.findings,
        "Appropriate exposure and positioning"),
      v.confidence,
      v.findings,
      RecommendationsFor(v.requiresReview),
      v.requiresReview)
  }

  // ----- properties -----

  /** The review list is returned exactly when the variant asks for review. */
  lemma ReviewListIffReview(request: ImageAnalysisRequest, choice: nat)
    requires choice < |TemplatesFor(request.imageType)|
    ensures AnalyzeImage(request, choice).recommendations == ReviewRecommendations
      <==> AnalyzeImage(request, choice).requiresReview
  {
    assert ReviewRecommendations[0] != RoutineRecommendations[0];
  }

  /** Whatever variant is picked, the confidence lies in [0.72, 0.92], the
      findings are non-empty, and a variant needing review is never the
      most confident of its category. */
  lemma VariantBounds(imageType: string, choice: nat)
    requires choice < |TemplatesFor(imageType)|
    ensures var v := TemplatesFor(imageType)[choice];
      0.72 <= v.confidence <= 0.92 && |v.findings| >= 2
      && (v.requiresReview ==> v.confidence < TemplatesFor(imageType)[0].confidence)
  {
    TemplatesForIsExactWithFallback(imageType);
  }

  /** An unknown type is analysed exactly as "xray" is, apart from the echoed
      `image_type`. */
  lemma UnknownTypeAnalysedAsXRay(request: ImageAnalysisRequest, choice: nat)
    requires request.imageType != "skin" && choice < |XRayVariants|
    ensures choice < |TemplatesFor(request.imageType)|
    ensures var xray := ImageAnalysisRequest(request.imagePath, "xray");
      AnalyzeImage(request, choice) == AnalyzeImage(xray, choice).(analysis := AnalyzeImage(xray, choice).analysis.(imageType := request.imageType))
  {
    TemplatesForIsExactWithFallback(request.imageType);
    TemplatesForIsExactWithFallback("xray");
  }
}
