/** The api-gateway: registration with a profile chosen by role, consultation
    creation that asks the triage service for an assessment and keeps the
    consultation whatever that call does, the access rules for reading
    consultations, and the health classification of the five services. The
    database is a store of four tables whose ids are their positions plus one. */
module ApiGateway {
  import opened Text
  import opened Domain
  import SymptomTriage
  import TriageService

  datatype User = User(id: nat, email: string, hashedPassword: string, fullName: string, role: UserRole)

  /** A patient profile; of its columns only the medical history is used. */
  datatype PatientProfile = PatientProfile(id: nat, userId: nat, medicalHistory: Option<string>)

  datatype ProviderProfile = ProviderProfile(id: nat, userId: nat)

  /** A consultation; the assessment is kept as the value the triage
      service returned. */
  datatype Consultation = Consultation(
    id: nat,
    patientId: nat,
    chiefComplaint: string,
    symptoms: Option<string>,
    triageLevel: Option<TriageLevel>,
    triageScore: Option<real>,
    aiAssessment: Option<SymptomTriage.Assessment>,
    status: string)

  const DuplicateEmail: HttpError := HttpError(400, "Email already registered")
  const OnlyPatients: HttpError := HttpError(403, "Only patients can create consultations")
  const NoProfile: HttpError := HttpError(404, "Patient profile not found")
  const NoConsultation: HttpError := HttpError(404, "Consultation not found")
  const NotAuthorized: HttpError := HttpError(403, "Not authorized to view this consultation")

  // ----- queries -----

  predicate EmailTaken(users: seq<User>, email: string) {
    exists i :: 0 <= i < |users| && users[i].email == email
  }

  /** `.filter(<key column> == k).first()`: the first row whose key is
      `k`, in table order. */
  function FindFirst<T>(rows: seq<T>, key: T -> nat, k: nat): (r: Option<T>)
    ensures r.Some? <==> exists i :: 0 <= i < |rows| && key(rows[i]) == k
    ensures r.Some? ==> exists i :: 0 <= i < |rows| && rows[i] == r.value && key(rows[i]) == k
                          && forall j :: 0 <= j < i ==> key(rows[j]) != k
  {
    if rows == [] then None
    else if key(rows[0]) == k then Some(rows[0])
    else
      var rest := FindFirst(rows[1..], key, k);
      assert forall i :: 1 <= i < |rows| ==> rows[i] == rows[1..][i - 1];
      rest
  }

  /** `.filter(PatientProfile.user_id == user_id).first()`. */
  function FindPatientProfile(patients: seq<PatientProfile>, userId: nat): (r: Option<PatientProfile>)
    ensures r.Some? <==> exists i :: 0 <= i < |patients| && patients[i].userId == userId
    ensures r.Some? ==> r.value in patients && r.value.userId == userId
  {
    FindFirst(patients, (p: PatientProfile) => p.userId, userId)
  }

  /** `.filter(Consultation.id == id).first()`. */
  function FindConsultation(consultations: seq<Consultation>, id: nat): (r: Option<Consultation>)
    ensures r.Some? <==> exists i :: 0 <= i < |consultations| && consultations[i].id == id
    ensures r.Some? ==> r.value in consultations && r.value.id == id
  {
    FindFirst(consultations, (c: Consultation) => c.id, id)
  }

  /** `.filter(Consultation.patient_id == patient_id).all()`, in table order. */
  function OwnConsultations(consultations: seq<Consultation>, patientId: nat): (r: seq<Consultation>)
    ensures forall c :: c in r <==> c in consultations && c.patientId == patientId
  {
    if consultations == [] then []
    else
      var init := consultations[..|consultations| - 1];
      var last := consultations[|consultations| - 1];
      assert consultations == init + [last];
      OwnConsultations(init, patientId) + (if last.patientId == patientId then [last] else [])
  }

  // ----- the triage request -----

  /** The request sent to the triage service: the symptoms and the
      history split on ",", without trimming; absent or empty symptoms give
      no symptoms, an absent or empty history gives none. */
  function TriageRequestFor(consultationId: nat, symptoms: Option<string>, history: Option<string>): TriageService.TriageRequest {
    TriageService.TriageRequest(
      consultationId,
      if symptoms.Some? && symptoms.value != "" then Split(symptoms.value, ',') else [],
      if history.Some? && history.value != "" then Some(Split(history.value, ',')) else None,
      None)
  }

  /** Splitting keeps every character: the pieces joined with "," give the
      text back, and there is one piece more than there are commas. */
  lemma TriageRequestKeepsText(consultationId: nat, symptoms: string, history: Option<string>)
    requires symptoms != ""
    ensures var request := TriageRequestFor(consultationId, Some(symptoms), history);
      && Join(request.symptoms, ',') == symptoms
      && |request.symptoms| == Count(symptoms, ',') + 1
      && request.consultationId == consultationId
      && (history.Some? && history.value != "" ==> Join(request.medicalHistory.value, ',') == history.value)
  {
    JoinSplit(symptoms, ',');
    SplitCount(symptoms, ',');
    if history.Some? && history.value != "" {
      JoinSplit(history.value, ',');
    }
  }

  /** The consultation after the triage call: only a 200 sets the level, the
      score and the assessment. */
  function Triaged(c: Consultation, triage: Outcome<TriageService.TriageResponse>): Consultation {
    if triage.Response? && triage.status == 200 then
      c.(triageLevel := Some(triage.body.triageLevel),
         triageScore := Some(triage.body.triageScore),
         aiAssessment := Some(triage.body.assessment))
    else c
  }

  /** A 200 changes the three triage fields and nothing else; any other
      status, a timeout or an error changes nothing. */
  lemma TriagedChangesOnlyTriageFields(c: Consultation, triage: Outcome<TriageService.TriageResponse>)
    ensures Triaged(c, triage).(triageLevel := c.triageLevel, triageScore := c.triageScore, aiAssessment := c.aiAssessment) == c
    ensures !(triage.Response? && triage.status == 200) ==> Triaged(c, triage) == c
    ensures triage.Response? && triage.status == 200 ==>
      && Triaged(c, triage).triageLevel == Some(triage.body.triageLevel)
      && Triaged(c, triage).triageScore == Some(triage.body.triageScore)
      && Triaged(c, triage).aiAssessment == Some(triage.body.assessment)
  {
  }

  // ----- consistency of the tables -----

  /** Ids are positions plus one and emails are unique. */
  predicate UsersValid(users: seq<User>) {
    && (forall i :: 0 <= i < |users| ==> users[i].id == i + 1)
    && (forall i, j :: 0 <= i < j < |users| ==> users[i].email != users[j].email)
  }

  /** Every patient profile belongs to a registered patient, one per user. */
  predicate PatientsValid(users: seq<User>, patients: seq<PatientProfile>) {
    && (forall i :: 0 <= i < |patients| ==>
          && patients[i].id == i + 1 && 1 <= patients[i].userId <= |users|
          && users[patients[i].userId - 1].role == Patient)
    && (forall i, j :: 0 <= i < j < |patients| ==> patients[i].userId != patients[j].userId)
  }

  /** Every provider profile belongs to a registered provider, one per user. */
  predicate ProvidersValid(users: seq<User>, providers: seq<ProviderProfile>) {
    && (forall i :: 0 <= i < |providers| ==>
          && providers[i].id == i + 1 && 1 <= providers[i].userId <= |users|
          && users[providers[i].userId - 1].role.IsProvider())
    && (forall i, j :: 0 <= i < j < |providers| ==> providers[i].userId != providers[j].userId)
  }

  /** Every consultation belongs to a patient profile. */
  predicate ConsultationsValid(patients: seq<PatientProfile>, consultations: seq<Consultation>) {
    forall i :: 0 <= i < |consultations| ==>
      consultations[i].id == i + 1 && 1 <= consultations[i].patientId <= |patients|
  }

  predicate ValidTables(users: seq<User>, patients: seq<PatientProfile>, providers: seq<ProviderProfile>,
                        consultations: seq<Consultation>) {
    UsersValid(users) && PatientsValid(users, patients) && ProvidersValid(users, providers)
    && ConsultationsValid(patients, consultations)
  }

  /** The profile `register` adds for a new user: a patient profile for a
      patient, a provider profile for a physician, nurse or specialist,
      nothing for an admin. */
  function NewPatientProfile(patients: seq<PatientProfile>, u: User): seq<PatientProfile> {
    if u.role == Patient then [PatientProfile(|patients| + 1, u.id, None)] else []
  }

  function NewProviderProfile(providers: seq<ProviderProfile>, u: User): seq<ProviderProfile> {
    if u.role.IsProvider() then [ProviderProfile(|providers| + 1, u.id)] else []
  }

  /** Registering a user with a fresh email and the next id, with the
      profile of the user's role, keeps every table consistent. */
  lemma AddUserKeepsTables(users: seq<User>, patients: seq<PatientProfile>, providers: seq<ProviderProfile>,
                           consultations: seq<Consultation>, u: User)
    requires ValidTables(users, patients, providers, consultations)
    requires u.id == |users| + 1 && !EmailTaken(users, u.email)
    ensures ValidTables(users + [u], patients + NewPatientProfile(patients, u),
                        providers + NewProviderProfile(providers, u), consultations)
  {
    AddUserKeepsUsers(users, u);
    AddUserKeepsPatients(users, patients, u);
    AddUserKeepsProviders(users, providers, u);
  }

  lemma AddUserKeepsUsers(users: seq<User>, u: User)
    requires UsersValid(users)
    requires u.id == |users| + 1 && !EmailTaken(users, u.email)
    ensures UsersValid(users + [u])
  {
    var users' := users + [u];
    forall i, j | 0 <= i < j < |users'|
      ensures users'[i].email != users'[j].email
    {
      if j == |users| {
        assert users'[i] == users[i];
      } else {
        assert users'[i] == users[i] && users'[j] == users[j];
      }
    }
  }

  lemma AddUserKeepsPatients(users: seq<User>, patients: seq<PatientProfile>, u: User)
    requires UsersValid(users) && PatientsValid(users, patients)
    requires u.id == |users| + 1
    ensures PatientsValid(users + [u], patients + NewPatientProfile(patients, u))
  {
    var users' := users + [u];
    var patients' := patients + NewPatientProfile(patients, u);
    forall i | 0 <= i < |patients'|
      ensures patients'[i].id == i + 1 && 1 <= patients'[i].userId <= |users'|
      ensures users'[patients'[i].userId - 1].role == Patient
    {
      if i < |patients| {
        assert patients'[i] == patients[i];
        assert users'[patients[i].userId - 1] == users[patients[i].userId - 1];
      }
    }
    forall i, j | 0 <= i < j < |patients'|
      ensures patients'[i].userId != patients'[j].userId
    {
      assert patients'[i] == patients[i];
      if j < |patients| {
        assert patients'[j] == patients[j];
      }
    }
  }

  lemma AddUserKeepsProviders(users: seq<User>, providers: seq<ProviderProfile>, u: User)
    requires UsersValid(users) && ProvidersValid(users, providers)
    requires u.id == |users| + 1
    ensures ProvidersValid(users + [u], providers + NewProviderProfile(providers, u))
  {
    var users' := users + [u];
    var providers' := providers + NewProviderProfile(providers, u);
    forall i | 0 <= i < |providers'|
      ensures providers'[i].id == i + 1 && 1 <= providers'[i].userId <= |users'|
      ensures users'[providers'[i].userId - 1].role.IsProvider()
    {
      if i < |providers| {
        assert providers'[i] == providers[i];
        assert users'[providers[i].userId - 1] == users[providers[i].userId - 1];
      }
    }
    forall i, j | 0 <= i < j < |providers'|
      ensures providers'[i].userId != providers'[j].userId
    {
      assert providers'[i] == providers[i];
      if j < |providers| {
        assert providers'[j] == providers[j];
      }
    }
  }

  /** A profile in a consistent table has an id within the table. */
  lemma ProfileIdInRange(users: seq<User>, patients: seq<PatientProfile>, p: PatientProfile)
    requires PatientsValid(users, patients) && p in patients
    ensures 1 <= p.id <= |patients|
  {
    var k :| 0 <= k < |patients| && patients[k] == p;
  }

  /** Adding a consultation with the next id and an existing patient keeps
      the consultations consistent. */
  lemma AddConsultationKeepsTables(patients: seq<PatientProfile>, consultations: seq<Consultation>, c: Consultation)
    requires ConsultationsValid(patients, consultations)
    requires c.id == |consultations| + 1 && 1 <= c.patientId <= |patients|
    ensures ConsultationsValid(patients, consultations + [c])
  {
  }

  // ----- the store -----

  class Store {
    var users: seq<User>
    var patients: seq<PatientProfile>
    var providers: seq<ProviderProfile>
    var consultations: seq<Consultation>

    /** The tables are consistent (see `ValidTables`). */
    predicate Valid()
      reads this
    {
      ValidTables(users, patients, providers, consultations)
    }

    constructor()
      ensures Valid()
      ensures users == [] && patients == [] && providers == [] && consultations == []
    {
      users := [];
      patients := [];
      providers := [];
      consultations := [];
    }

    /** `register`, with the password hash given. A taken email is a 400
        and changes nothing; otherwise the user is added, then a patient
        profile for a patient, a provider profile for a physician, nurse or
        specialist, and no profile for an admin. */
    method Register(email: string, hashedPassword: string, fullName: string, role: UserRole) returns (r: Result<User>)
      requires Valid()
      modifies this
      ensures Valid()
      ensures EmailTaken(old(users), email) ==> r == Err(DuplicateEmail) && unchanged(this)
      ensures !EmailTaken(old(users), email) ==>
        var u := User(|old(users)| + 1, email, hashedPassword, fullName, role);
        && r == Ok(u)
        && users == old(users) + [u]
        && patients == old(patients) + NewPatientProfile(old(patients), u)
        && providers == old(providers) + NewProviderProfile(old(providers), u)
        && consultations == old(consultations)
    {
      if EmailTaken(users, email) {
        return Err(DuplicateEmail);
      }
      var u := User(|users| + 1, email, hashedPassword, fullName, role);
      AddUserKeepsTables(users, patients, providers, consultations, u);
      users := users + [u];
      if role == Patient {
        patients := patients + [PatientProfile(|patients| + 1, u.id, None)];
      } else if role.IsProvider() {
        providers := providers + [ProviderProfile(|providers| + 1, u.id)];
      }
      assert patients == old(patients) + NewPatientProfile(old(patients), u);
      assert providers == old(providers) + NewProviderProfile(old(providers), u);
      r := Ok(u);
    }

    /** `create_consultation`, with the triage service's answer given as
        `triage`. Non-patients get 403, a patient without a profile 404, in
        that order; otherwise the consultation is added, the triage request
        is sent, and the consultation is returned whatever the triage call
        did, with its triage fields set only on a 200. */
    method CreateConsultation(current: User, chiefComplaint: string, symptoms: Option<string>,
                              triage: Outcome<TriageService.TriageResponse>)
      returns (r: Result<Consultation>, sent: Option<TriageService.TriageRequest>)
      requires Valid()
      modifies this
      ensures Valid()
      ensures users == old(users) && patients == old(patients) && providers == old(providers)
      ensures current.role != Patient ==> r == Err(OnlyPatients) && sent == None && consultations == old(consultations)
      ensures current.role == Patient && FindPatientProfile(patients, current.id).None? ==>
        r == Err(NoProfile) && sent == None && consultations == old(consultations)
      ensures current.role == Patient && FindPatientProfile(patients, current.id).Some? ==>
        var profile := FindPatientProfile(patients, current.id).value;
        var created := Consultation(|old(consultations)| + 1, profile.id, chiefComplaint, symptoms, None, None, None, "pending");
        && r == Ok(Triaged(created, triage))
        && consultations == old(consultations) + [Triaged(created, triage)]
        && sent == Some(TriageRequestFor(created.id, symptoms, profile.medicalHistory))
    {
      if current.role != Patient {
        return Err(OnlyPatients), None;
      }
      var found := FindPatientProfile(patients, current.id);
      if found.None? {
        return Err(NoProfile), None;
      }
      var profile := found.value;
      var nextId := |consultations| + 1;
      var consultation := AddConsultation(profile, chiefComplaint, symptoms, triage);
      sent := Some(TriageRequestFor(nextId, symptoms, profile.medicalHistory));
      r := Ok(consultation);
    }

    /** The part of `create_consultation` after the checks: the pending
        consultation is added with the next id, then, on a 200 from the
        triage service, its triage fields are set in place. */
    method AddConsultation(profile: PatientProfile, chiefComplaint: string, symptoms: Option<string>,
                           triage: Outcome<TriageService.TriageResponse>)
      returns (consultation: Consultation)
      requires Valid() && profile in patients
      modifies this
      ensures Valid()
      ensures users == old(users) && patients == old(patients) && providers == old(providers)
      ensures consultation == Triaged(
        Consultation(|old(consultations)| + 1, profile.id, chiefComplaint, symptoms, None, None, None, "pending"), triage)
      ensures consultations == old(consultations) + [consultation]
    {
      ProfileIdInRange(users, patients, profile);
      consultation := Consultation(|consultations| + 1, profile.id, chiefComplaint, symptoms, None, None, None, "pending");
      var triaged := Triaged(consultation, triage);
      AddConsultationKeepsTables(patients, consultations, triaged);
      consultations := consultations + [consultation];
      if triage.Response? && triage.status == 200 {
        var result := triage.body;
        consultation := consultation.(triageLevel := Some(result.triageLevel),
                                      triageScore := Some(result.triageScore),
                                      aiAssessment := Some(result.assessment));
        consultations := consultations[|consultations| - 1 := consultation];
      }
      assert consultation == triaged;
      assert consultations == old(consultations) + [triaged];
    }

    /** `get_consultations`: a patient sees the consultations of their
        profile (404 without one); every other role sees all of them. */
    function GetConsultations(current: User): (r: Result<seq<Consultation>>)
      reads this
      ensures r.Ok? ==> forall c :: c in r.value ==> c in consultations
      ensures r.Err? ==> current.role == Patient && r == Err(NoProfile)
    {
      if current.role == Patient then
        match FindPatientProfile(patients, current.id)
        case None => Err(NoProfile)
        case Some(profile) => Ok(OwnConsultations(consultations, profile.id))
      else Ok(consultations)
    }

    /** `get_consultation`: 404 when absent; a patient may see it only when
        it belongs to their profile (403 otherwise, also without a profile);
        every other role may see any. */
    function GetConsultation(current: User, id: nat): (r: Result<Consultation>)
      reads this
      ensures r.Ok? ==> r.value in consultations && r.value.id == id
      ensures r == Err(NotAuthorized) ==> current.role == Patient
    {
      match FindConsultation(consultations, id)
      case None => Err(NoConsultation)
      case Some(c) =>
        if current.role == Patient then
          match FindPatientProfile(patients, current.id)
          case None => Err(NotAuthorized)
          case Some(profile) => if c.patientId != profile.id then Err(NotAuthorized) else Ok(c)
        else Ok(c)
    }
  }

  // ----- access rules -----

  /** A patient's list holds exactly the stored consultations of their
      profile; a provider's or an admin's holds all of them. */
  lemma ConsultationsVisible(store: Store, current: User)
    ensures current.role == Patient ==>
      match FindPatientProfile(store.patients, current.id)
      case None => store.GetConsultations(current) == Err(NoProfile)
      case Some(profile) =>
        && store.GetConsultations(current).Ok?
        && forall c :: c in store.GetConsultations(current).value
             <==> c in store.consultations && c.patientId == profile.id
    ensures current.role != Patient ==> store.GetConsultations(current) == Ok(store.consultations)
  {
  }

  /** A consultation is returned exactly when it is stored and, for a
      patient, belongs to their profile; an absent one is a 404 and a
      refused one a 403. */
  lemma ConsultationAccess(store: Store, current: User, id: nat)
    ensures store.GetConsultation(current, id).Ok? ==>
      && store.GetConsultation(current, id).value in store.consultations
      && store.GetConsultation(current, id).value.id == id
    ensures store.GetConsultation(current, id).Ok? <==>
      && FindConsultation(store.consultations, id).Some?
      && (current.role == Patient ==>
            && FindPatientProfile(store.patients, current.id).Some?
            && FindConsultation(store.consultations, id).value.patientId == FindPatientProfile(store.patients, current.id).value.id)
    ensures FindConsultation(store.consultations, id).None? ==> store.GetConsultation(current, id) == Err(NoConsultation)
    ensures store.GetConsultation(current, id).Err? && FindConsultation(store.consultations, id).Some? ==>
      store.GetConsultation(current, id) == Err(NotAuthorized)
  {
  }

  /** What a patient may open one by one is in the list they are shown. */
  lemma SingleAccessAgreesWithList(store: Store, current: User, id: nat)
    requires store.GetConsultation(current, id).Ok?
    ensures store.GetConsultations(current).Ok?
    ensures store.GetConsultation(current, id).value in store.GetConsultations(current).value
  {
  }

  /** In a valid store the first profile found for a user is that user's
      only one, and a freshly registered patient finds the profile made for
      them. */
  lemma RegisteredPatientHasProfile(patients: seq<PatientProfile>, p: PatientProfile)
    requires forall i :: 0 <= i < |patients| ==> patients[i].userId != p.userId
    ensures FindPatientProfile(patients + [p], p.userId) == Some(p)
  {
    var all := patients + [p];
    assert all[|patients|] == p;
    var found := FindPatientProfile(all, p.userId);
    assert found.value in all;
    var k :| 0 <= k < |all| && all[k] == found.value;
    assert found.value.userId == p.userId;
    if k < |patients| {
      assert all[k] == patients[k];
    }
  }

  // ----- health of the services -----

  /** The five services and their base URLs, in the order they are probed. */
  const Services: seq<(string, string)> := [
    ("patient-service", "http://patient-service:8000"),
    ("triage-service", "http://triage-service:8000"),
    ("imaging-service", "http://imaging-service:8000"),
    ("clinical-service", "http://clinical-service:8000"),
    ("ai-service", "http://ai-service:8000")
  ]

  datatype HealthStatus = Healthy(response: string) | Unhealthy | Unreachable(error: string) {
    function Name(): string {
      match this
      case Healthy(_) => "healthy"
      case Unhealthy => "unhealthy"
      case Unreachable(_) => "unreachable"
    }
  }

  /** A 200 is healthy with its body, another status is unhealthy with no
      body, an exception (a timeout included) is unreachable with its text. */
  function Classify(probe: Outcome<string>): (r: HealthStatus)
    ensures r.Healthy? <==> probe.Response? && probe.status == 200
    ensures r.Unreachable? <==> !probe.Response?
  {
    match probe
    case Response(status, body) => if status == 200 then Healthy(body) else Unhealthy
    case Timeout(message) => Unreachable(message)
    case Failure(message) => Unreachable(message)
  }

  lemma ClassifyIff(probe: Outcome<string>)
    ensures Classify(probe).Name() == "healthy" <==> probe.Response? && probe.status == 200
    ensures Classify(probe).Name() == "unhealthy" <==> probe.Response? && probe.status != 200
    ensures Classify(probe).Name() == "unreachable" <==> !probe.Response?
    ensures Classify(probe).Healthy? ==> Classify(probe).response == probe.body
  {
    assert |"healthy"| != |"unhealthy"| && |"healthy"| != |"unreachable"|;
    assert "unhealthy"[2] != "unreachable"[2];
  }

  /** `get_services_status`, with the outcome of `GET <url>/health` given
      by `probe`: one entry per service, in order, each classified. */
  method GetServicesStatus(probe: string -> Outcome<string>) returns (results: seq<(string, HealthStatus)>)
    ensures |results| == |Services|
    ensures forall i :: 0 <= i < |results| ==>
      results[i] == (Services[i].0, Classify(probe(Services[i].1 + "/health")))
  {
    results := [];
    for i := 0 to |Services|
      invariant |results| == i
      invariant forall k :: 0 <= k < i ==> results[k] == (Services[k].0, Classify(probe(Services[k].1 + "/health")))
    {
      var name := Services[i].0;
      var outcome := probe(Services[i].1 + "/health");
      var status: HealthStatus;
      match outcome {
        case Response(code, body) =>
          status := if code == 200 then Healthy(body) else Unhealthy;
        case Timeout(message) =>
          status := Unreachable(message);
        case Failure(message) =>
          status := Unreachable(message);
      }
      results := results + [(name, status)];
    }
  }

  /** The status table has exactly the five service names, each once. */
  lemma ServiceNamesDistinct()
    ensures |Services| == 5
    ensures forall i, j :: 0 <= i < j < |Services| ==> Services[i].0 != Services[j].0
  {
    assert Services[0].0[0] != Services[1].0[0] && Services[0].0[0] != Services[2].0[0];
    assert Services[0].0[0] != Services[3].0[0] && Services[0].0[0] != Services[4].0[0];
    assert Services[1].0[0] != Services[2].0[0] && Services[1].0[0] != Services[3].0[0];
    assert Services[1].0[0] != Services[4].0[0] && Services[2].0[0] != Services[3].0[0];
    assert Services[2].0[0] != Services[4].0[0] && Services[3].0[0] != Services[4].0[0];
  }
}
