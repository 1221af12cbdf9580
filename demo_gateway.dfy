/** The demo gateway: its simulated image analysis (an exact-membership
    table on the lowercased image type), the credential check behind its two
    login endpoints, and the error wrapping of its image upload. */
module DemoGateway {
  import opened Text
  import opened Domain
  import Keywords
  import GradioInterpreter

  // ----- simulated image analysis -----

  const SimulatedModel: string := "MedGemma 4B Multimodal"

  /** The image types each specialised simulation answers, lowercase. */
  const XRayTypes: seq<string> := ["x-ray", "chest x-ray", "chest"]
  const CTTypes: seq<string> := ["ct", "ct scan", "computed tomography"]
  const MRITypes: seq<string> := ["mri", "magnetic resonance"]
  const DermatologyTypes: seq<string> := ["dermatology", "skin", "dermoscopy"]

  predicate IsRecognisedType(typeLower: string) {
    typeLower in XRayTypes || typeLower in CTTypes || typeLower in MRITypes || typeLower in DermatologyTypes
  }

  const XRayReport: Report := Report(
    SimulatedModel, 91.3,
    ["MedGemma Analysis: Normal chest radiograph",
     "Cardiomediastinal silhouette within normal limits",
     "No acute pulmonary infiltrates or pleural effusions",
     "Bony structures appear intact",
     "No suspicious masses or nodules detected"],
    Keywords.Low,
    "MedGemma suggests routine clinical correlation. No immediate intervention required.",
    None,
    [("image_quality", Str("Good")),
     ("artifacts", Null),
     ("comparison", Str("No prior studies available for comparison"))])

  const CTReport: Report := Report(
    SimulatedModel, 87.6,
    ["MedGemma CT Analysis: No acute intracranial abnormalities",
     "Gray-white matter differentiation preserved",
     "No evidence of hemorrhage or mass effect",
     "Ventricular system normal in size and configuration"],
    Keywords.Low,
    "MedGemma: Normal CT findings. Clinical correlation recommended.",
    None,
    [("slice_thickness", Str("5mm")),
     ("contrast", Str("Non-contrast study")),
     ("quality", Str("Diagnostic"))])

  const MRIReport: Report := Report(
    SimulatedModel, 89.2,
    ["MedGemma MRI Analysis: Normal brain MRI",
     "No abnormal signal intensity on T1 and T2 sequences",
     "No restricted diffusion on DWI",
     "Vascular structures appear normal"],
    Keywords.Low,
    "MedGemma: Unremarkable MRI study. Continue clinical management as appropriate.",
    None,
    [("sequences", StrList(["T1", "T2", "FLAIR", "DWI"])),
     ("field_strength", Str("1.5T")),
     ("quality", Str("Excellent"))])

  const DermatologyReport: Report := Report(
    SimulatedModel, 93.1,
    ["MedGemma Dermatology Analysis: Benign-appearing lesion",
     "Regular borders and uniform pigmentation",
     "No asymmetry or irregular features",
     "Consistent with seborrheic keratosis pattern"],
    Keywords.Low,
    "MedGemma: Benign characteristics. Routine dermatological follow-up recommended.",
    None,
    [("dermoscopy_features", Str("Regular pattern")),
     ("color_analysis", Str("Uniform brown pigmentation")),
     ("border_assessment", Str("Well-defined"))])

  /** The general analysis, which echoes the image type as given. */
  function GeneralReport(imageType: string): Report {
    Report(
      SimulatedModel, 82.4,
      ["MedGemma General Analysis: Image quality adequate for interpretation",
       "No obvious acute abnormalities detected",
       "Recommend specialist correlation for detailed assessment"],
      Keywords.Moderate,
      "MedGemma: Requires specialist interpretation based on clinical context.",
      None,
      [("image_type", Str(imageType)),
       ("analysis_mode", Str("General medical imaging")),
       ("note", Str("Specialized analysis available with domain-specific models"))])
  }

  /** `analyze_with_medgemma`: the first group whose list holds the
      lowercased type, else the general analysis. */
  function AnalyzeWithMedGemma(imageType: string): Report {
    var t := Lower(imageType);
    if t in XRayTypes then XRayReport
    else if t in CTTypes then CTReport
    else if t in MRITypes then MRIReport
    else if t in DermatologyTypes then DermatologyReport
    else GeneralReport(imageType)
  }

  /** The four groups share no type, so at most one of them answers and the
      order of the tests does not matter. */
  lemma GroupsDisjoint()
    ensures forall t :: t in XRayTypes ==> t !in CTTypes && t !in MRITypes && t !in DermatologyTypes
    ensures forall t :: t in CTTypes ==> t !in MRITypes && t !in DermatologyTypes
    ensures forall t :: t in MRITypes ==> t !in DermatologyTypes
  {
  }

  /** Each recognised group answers with its own analysis. */
  lemma SimulationOfGroups(imageType: string)
    ensures Lower(imageType) in XRayTypes ==> AnalyzeWithMedGemma(imageType) == XRayReport
    ensures Lower(imageType) in CTTypes ==> AnalyzeWithMedGemma(imageType) == CTReport
    ensures Lower(imageType) in MRITypes ==> AnalyzeWithMedGemma(imageType) == MRIReport
    ensures Lower(imageType) in DermatologyTypes ==> AnalyzeWithMedGemma(imageType) == DermatologyReport
  {
    GroupsDisjoint();
  }

  /** A recognised type gets priority LOW; any other type gets the general
      analysis, with priority MODERATE, confidence 82.4 and the type echoed
      in the technical details. */
  lemma SimulationByMembership(imageType: string)
    ensures AnalyzeWithMedGemma(imageType).priority == Keywords.Low <==> IsRecognisedType(Lower(imageType))
    ensures AnalyzeWithMedGemma(imageType).priority == Keywords.Moderate <==> !IsRecognisedType(Lower(imageType))
    ensures !IsRecognisedType(Lower(imageType)) ==>
      var r := AnalyzeWithMedGemma(imageType);
      && r == GeneralReport(imageType)
      && r.confidence == 82.4
      && |r.details| == 3
      && r.details[0] == ("image_type", Str(imageType))
  {
    assert Keywords.Low != Keywords.Moderate by {
      assert |Keywords.Low| != |Keywords.Moderate|;
    }
    if IsRecognisedType(Lower(imageType)) {
      SimulationIsLow(imageType);
    } else {
      assert AnalyzeWithMedGemma(imageType) == GeneralReport(imageType);
    }
  }

  /** Every specialised analysis has priority LOW. */
  lemma SimulationIsLow(imageType: string)
    requires IsRecognisedType(Lower(imageType))
    ensures AnalyzeWithMedGemma(imageType).priority == Keywords.Low
  {
    var t := Lower(imageType);
    if t in XRayTypes {
      assert XRayReport.priority == Keywords.Low;
    } else if t in CTTypes {
      assert CTReport.priority == Keywords.Low;
    } else if t in MRITypes {
      assert MRIReport.priority == Keywords.Low;
    } else {
      assert DermatologyReport.priority == Keywords.Low;
    }
  }

  /** Matching is on whole lowercased types, not on words: "Chest X-Ray"
      is an x-ray, but "chest ct" is none of the groups. */
  lemma MembershipIsExact()
    ensures AnalyzeWithMedGemma("Chest X-Ray") == XRayReport
    ensures AnalyzeWithMedGemma("chest ct") == GeneralReport("chest ct")
  {
    assert Lower("Chest X-Ray") == "chest x-ray";
    assert Lower("chest ct") == "chest ct";
    assert "chest ct" !in XRayTypes && "chest ct" !in CTTypes;
    assert "chest ct" !in MRITypes && "chest ct" !in DermatologyTypes;
  }

  // ----- credential check -----

  datatype DemoUser = DemoUser(password: string, role: string, fullName: string, id: nat)

  /** `DEMO_USERS`, keyed by email. */
  const DemoUsers: map<string, DemoUser> := map[
    "patient@demo.com" := DemoUser("password123", "patient", "Demo Patient", 1),
    "doctor@demo.com" := DemoUser("password123", "physician", "Dr. Demo", 2)
  ]

  datatype UserInfo = UserInfo(id: nat, email: string, fullName: string, role: string)

  datatype LoginResponse = LoginResponse(accessToken: string, tokenType: string, user: UserInfo)

  const BadCredentials: HttpError := HttpError(401, "Incorrect email or password")
  const MissingCredentials: HttpError := HttpError(400, "Username/email and password required")

  /** The check both login endpoints share: a known email with its password
      yields a bearer token naming the user's id. */
  function Authenticate(username: string, password: string): Result<LoginResponse> {
    if username in DemoUsers && DemoUsers[username].password == password then
      var u := DemoUsers[username];
      Ok(LoginResponse("demo_token_" + NatToString(u.id), "bearer", UserInfo(u.id, username, u.fullName, u.role)))
    else
      Err(BadCredentials)
  }

  /** A token is issued exactly for a known email with its password,
      and it carries that user's record; everything else is a 401. */
  lemma AuthenticateIff(username: string, password: string)
    ensures Authenticate(username, password).Ok?
      <==> username in DemoUsers && DemoUsers[username].password == password
    ensures Authenticate(username, password).Ok? ==>
      var u := DemoUsers[username];
      Authenticate(username, password).value
        == LoginResponse("demo_token_" + NatToString(u.id), "bearer", UserInfo(u.id, username, u.fullName, u.role))
    ensures Authenticate(username, password).Err? ==> Authenticate(username, password).error == BadCredentials
  {
  }

  /** Distinct users receive distinct tokens. */
  lemma TokensIdentifyUsers(u1: string, p1: string, u2: string, p2: string)
    requires Authenticate(u1, p1).Ok? && Authenticate(u2, p2).Ok?
    requires Authenticate(u1, p1).value.accessToken == Authenticate(u2, p2).value.accessToken
    ensures u1 == u2
  {
    var prefix := "demo_token_";
    var id1 := DemoUsers[u1].id;
    var id2 := DemoUsers[u2].id;
    var t := Authenticate(u1, p1).value.accessToken;
    assert t == prefix + NatToString(id1) == prefix + NatToString(id2);
    assert NatToString(id1) == t[|prefix|..] == NatToString(id2);
    NatToStringRoundTrip(id1);
    NatToStringRoundTrip(id2);
  }

  /** A JSON body that decoded to an object (with text values), or one that
      `request.json()` rejected, with the message of its error. Bodies whose
      JSON is not an object are counted as rejected. */
  datatype JsonBody = JsonObject(fields: map<string, string>) | JsonRejected(message: string)

  /** The login request: its content type, its body read as JSON, and its
      body read as a form. */
  datatype LoginRequest = LoginRequest(contentType: string, json: JsonBody, form: map<string, string>)

  /** A looked-up value; None is a missing key. */
  function Get(fields: map<string, string>, key: string): Option<string> {
    if key in fields then Some(fields[key]) else None
  }

  /** Python truthiness of an optional string. */
  predicate Truthy(v: Option<string>) {
    v.Some? && v.value != ""
  }

  /** Python's `a or b` on optional strings. */
  function OrElse(a: Option<string>, b: Option<string>): Option<string> {
    if Truthy(a) then a else b
  }

  /** The credentials of a form or a `get`-read object: the username falls
      back to the email when it is missing or empty. */
  function FieldCredentials(fields: map<string, string>): (Option<string>, Option<string>) {
    (OrElse(Get(fields, "username"), Get(fields, "email")), Get(fields, "password"))
  }

  /** The credentials of a JSON login: "username" if the key is present,
      else "email", and then "password" is read by subscript, so its absence
      is a `KeyError` that the handler turns into a 400. */
  function JsonCredentials(fields: map<string, string>): Result<(Option<string>, Option<string>)> {
    if "username" in fields || "email" in fields then
      var name := if "username" in fields then fields["username"] else fields["email"];
      if "password" in fields then Ok((Some(name), Some(fields["password"])))
      else Err(HttpError(400, "Login error: 'password'"))
    else
      Ok((None, None))
  }

  /** How `login` reads the credentials, by content type. */
  function ExtractCredentials(request: LoginRequest): Result<(Option<string>, Option<string>)> {
    if Contains(request.contentType, "application/json") then
      match request.json
      case JsonRejected(message) => Err(HttpError(400, "Login error: " + message))
      case JsonObject(fields) => JsonCredentials(fields)
    else if Contains(request.contentType, "application/x-www-form-urlencoded") then
      Ok(FieldCredentials(request.form))
    else
      match request.json
      case JsonObject(fields) => Ok(FieldCredentials(fields))
      case JsonRejected(_) => Ok(FieldCredentials(request.form))
  }

  /** `login`: credentials that cannot be read are a 400 "Login error", a
      missing or empty username or password is a 400, and the rest goes to
      the credential check. */
  function Login(request: LoginRequest): Result<LoginResponse> {
    match ExtractCredentials(request)
    case Err(e) => Err(e)
    case Ok(credentials) =>
      if !Truthy(credentials.0) || !Truthy(credentials.1) then Err(MissingCredentials)
      else Authenticate(credentials.0.value, credentials.1.value)
  }

  /** `login_oauth`: the form's username and password go straight to the
      credential check. */
  function LoginOauth(username: string, password: string): Result<LoginResponse> {
    Authenticate(username, password)
  }

  /** The three outcomes of `login`: a token exactly for readable, non-empty,
      valid credentials; a 401 exactly for readable, non-empty, invalid ones;
      a 400 in every other case. */
  lemma LoginOutcomes(request: LoginRequest)
    ensures Login(request).Ok? <==>
      var c := ExtractCredentials(request);
      c.Ok? && Truthy(c.value.0) && Truthy(c.value.1)
      && c.value.0.value in DemoUsers && DemoUsers[c.value.0.value].password == c.value.1.value
    ensures Login(request).Err? && Login(request).error.status == 401 <==>
      var c := ExtractCredentials(request);
      c.Ok? && Truthy(c.value.0) && Truthy(c.value.1)
      && !(c.value.0.value in DemoUsers && DemoUsers[c.value.0.value].password == c.value.1.value)
    ensures Login(request).Err? ==> Login(request).error.status in {400, 401}
  {
  }

  /** A missing or empty username or password is rejected with 400 before
      any credential is looked at. */
  lemma LoginRejectsMissing(request: LoginRequest)
    requires ExtractCredentials(request).Ok?
    requires !Truthy(ExtractCredentials(request).value.0) || !Truthy(ExtractCredentials(request).value.1)
    ensures Login(request) == Err(MissingCredentials)
  {
  }

  /** In a JSON login a present "username" wins even when empty, while a
      form falls back to "email" when "username" is empty. */
  lemma UsernamePrecedence(fields: map<string, string>)
    requires "username" in fields && "password" in fields
    ensures JsonCredentials(fields) == Ok((Some(fields["username"]), Some(fields["password"])))
    ensures fields["username"] == "" ==> FieldCredentials(fields).0 == Get(fields, "email")
    ensures fields["username"] != "" ==> FieldCredentials(fields).0 == Some(fields["username"])
  {
  }

  /** For a form carrying a non-empty username and password, `login` and
      `login_oauth` agree. */
  lemma LoginAgreesWithOauth(contentType: string, json: JsonBody, username: string, password: string)
    requires username != "" && password != ""
    requires Contains(contentType, "application/x-www-form-urlencoded") && !Contains(contentType, "application/json")
    ensures Login(LoginRequest(contentType, json, map["username" := username, "password" := password]))
      == LoginOauth(username, password)
  {
    var form := map["username" := username, "password" := password];
    assert Get(form, "username") == Some(username);
    assert Get(form, "password") == Some(password);
  }

  // ----- image upload -----

  /** A form value: an uploaded file, or a text field. */
  datatype FormField = UploadedFile(filename: string) | TextField(text: string)

  predicate FieldTruthy(f: FormField) {
    f.UploadedFile? || f.text != ""
  }

  /** The upload request: the form, or the message of the error raised while
      reading it. */
  datatype UploadRequest = UploadForm(fields: map<string, FormField>) | UnreadableForm(message: string)

  /** The body `upload_image` answers with. */
  datatype UploadResponse =
    | Analyzed(id: nat, filename: string, imageType: string, status: string, aiModel: string,
               analysis: Report, uploadedAt: string, message: string)
    | UploadFailed(status: string, message: string)

  const FailurePrefix: string := "MedGemma analysis failed: "
  const NoFile: HttpError := HttpError(400, "No image file provided")

  function Failed(message: string): UploadResponse {
    UploadFailed("error", FailurePrefix + message)
  }

  /** Whether `form.get("file") or form.get("image")` is truthy. */
  predicate HasImage(fields: map<string, FormField>) {
    ("file" in fields && FieldTruthy(fields["file"])) || ("image" in fields && FieldTruthy(fields["image"]))
  }

  /** `upload_image`, with the live demo's availability and how its call
      ended given as `live` (None when the gateway runs without it). Every
      failure becomes an error body: the missing-file HTTPException, a form
      that cannot be read, and an image type that is a file rather than
      text (its `lower()` raises). */
  function UploadImage(request: UploadRequest, live: Option<GradioInterpreter.GradioCall>): UploadResponse {
    match request
    case UnreadableForm(message) => Failed(message)
    case UploadForm(fields) =>
      if !HasImage(fields) then Failed(NoFile.Describe())
      else
        var typeField := if "image_type" in fields then fields["image_type"] else TextField("X-Ray");
        match typeField
        case UploadedFile(_) => Failed("'UploadFile' object has no attribute 'lower'")
        case TextField(imageType) =>
          var analysis := if live.Some? then GradioInterpreter.AnalysisOf(imageType, live.value)
                          else AnalyzeWithMedGemma(imageType);
          var aiModel := if live.Some? then "MedGemma 4B IT (Live Demo)" else "MedGemma 4B Multimodal (Demo)";
          var message := if live.Some? then "Image analyzed using LIVE MedGemma AI demo!"
                         else "Image analyzed using demo MedGemma simulation.";
          Analyzed(123, "medgemma_real_" + Lower(imageType) + ".jpeg", imageType, "analyzed", aiModel,
                   analysis, "2025-06-22T15:30:00Z", message)
  }

  /** A missing file gives the error body naming the 400 rather than an
      exception. */
  lemma UploadWithoutFile(fields: map<string, FormField>, live: Option<GradioInterpreter.GradioCall>)
    requires !HasImage(fields)
    ensures UploadImage(UploadForm(fields), live)
      == UploadFailed("error", FailurePrefix + "400: " + NoFile.detail)
  {
    DescribeStatus(NoFile);
    ConcatAssoc(FailurePrefix, "400: ", NoFile.detail);
  }

  /** No upload raises: every failure is an error body whose message starts
      with the failure prefix, and the upload is analysed exactly when the
      form is readable, holds an image and its type is text. */
  lemma UploadFailsSoftly(request: UploadRequest, live: Option<GradioInterpreter.GradioCall>)
    ensures UploadImage(request, live).UploadFailed? ==>
      && UploadImage(request, live).status == "error"
      && FailurePrefix <= UploadImage(request, live).message
    ensures UploadImage(request, live).Analyzed? <==>
      && request.UploadForm? && HasImage(request.fields)
      && !("image_type" in request.fields && request.fields["image_type"].UploadedFile?)
  {
  }

  /** A successful upload is "analyzed", is named after the lowercased type,
      and carries the live analysis when the live demo is there and the
      simulated one otherwise; a missing type is "X-Ray". */
  lemma UploadSucceeds(fields: map<string, FormField>, live: Option<GradioInterpreter.GradioCall>, imageType: string)
    requires HasImage(fields)
    requires if "image_type" in fields then fields["image_type"] == TextField(imageType) else imageType == "X-Ray"
    ensures var r := UploadImage(UploadForm(fields), live);
      && r.Analyzed? && r.status == "analyzed" && r.id == 123
      && r.imageType == imageType
      && r.filename == "medgemma_real_" + Lower(imageType) + ".jpeg"
      && (live.Some? ==> r.analysis == GradioInterpreter.AnalysisOf(imageType, live.value))
      && (live.None? ==> r.analysis == AnalyzeWithMedGemma(imageType))
  {
  }

  /** Without the live demo and without a type, the upload is analysed as an
      x-ray and named "medgemma_real_x-ray.jpeg". */
  lemma DefaultUploadIsXRay(fields: map<string, FormField>)
    requires HasImage(fields) && "image_type" !in fields
    ensures UploadImage(UploadForm(fields), None).analysis == XRayReport
    ensures UploadImage(UploadForm(fields), None).filename == "medgemma_real_x-ray.jpeg"
  {
    assert Lower("X-Ray") == "x-ray";
  }
}
