/** The ai-service's symptom triage scorer (`/ai/analyze-symptoms`): keyword
    rules matched by lower-case substring, the first strict maximum kept, a
    history bump capped at 1.0, red flags and a fixed recommendation list per
    level. */
module SymptomTriage {
  import opened Text
  import opened Domain

  datatype Rule = Rule(key: string, level: TriageLevel, score: real)

  /** `SYMPTOM_TRIAGE_RULES`, in insertion order. */
  const TriageRules: seq<Rule> := [
    Rule("chest pain", Critical, 0.9),
    Rule("difficulty breathing", Critical, 0.85),
    Rule("severe headache", Urgent, 0.7),
    Rule("fever", Urgent, 0.6),
    Rule("nausea", Routine, 0.3),
    Rule("cough", Routine, 0.4),
    Rule("fatigue", Routine, 0.2),
    Rule("dizziness", Urgent, 0.5),
    Rule("abdominal pain", Urgent, 0.6),
    Rule("shortness of breath", Critical, 0.8)
  ]

  /** History entries holding one of these raise the score. */
  const RiskTerms: seq<string> := ["diabetes", "heart", "hypertension"]
  const HistoryIncrement: real := 0.1
  const ScoreCap: real := 1.0

  /** Symptoms holding one of these are red flags. */
  const RedFlagTerms: seq<string> := ["chest pain", "difficulty breathing", "severe"]

  const DefaultConcern: string := "General consultation"

  datatype SymptomAnalysisRequest = SymptomAnalysisRequest(
    symptoms: seq<string>,
    medicalHistory: Option<seq<string>>,
    vitalSigns: Option<map<string, real>>)

  datatype Assessment = Assessment(
    primaryConcern: string,
    riskFactors: seq<string>,
    clinicalReasoning: string,
    redFlags: seq<string>)

  datatype SymptomAnalysisResponse = SymptomAnalysisResponse(
    triageLevel: TriageLevel,
    triageScore: real,
    assessment: Assessment,
    recommendations: seq<string>,
    confidence: real)

  // ----- which rules a report matches -----

  /** The rules among `rules` whose key occurs in `symptomLower`, in order. */
  function MatchingRules(symptomLower: string, rules: seq<Rule>): seq<Rule> {
    if rules == [] then []
    else
      var last := rules[|rules| - 1];
      MatchingRules(symptomLower, rules[..|rules| - 1])
        + (if Contains(symptomLower, last.key) then [last] else [])
  }

  /** Every (symptom, rule) match in the order the source's nested loops
      visit them: symptoms in order, the table in insertion order within each. */
  function Matches(symptoms: seq<string>): seq<Rule> {
    if symptoms == [] then []
    else Matches(symptoms[..|symptoms| - 1]) + MatchingRules(Lower(symptoms[|symptoms| - 1]), TriageRules)
  }

  // ----- the running maximum -----

  datatype Best = Best(level: TriageLevel, score: real)

  const NoMatch: Best := Best(Routine, 0.0)

  /** The (level, score) pair the source's loops hold after visiting `ms`:
      a rule replaces the pair only when its score is strictly larger. */
  function FirstMax(ms: seq<Rule>): Best {
    if ms == [] then NoMatch
    else
      var b := FirstMax(ms[..|ms| - 1]);
      var r := ms[|ms| - 1];
      if r.score > b.score then Best(r.level, r.score) else b
  }

  /** `b` is the first maximum of `ms`: its score is the largest score in `ms`
      and its level is that of the FIRST rule reaching it; with no rule, it is
      (routine, 0). */
  ghost predicate IsFirstMaximum(ms: seq<Rule>, b: Best) {
    if ms == [] then b == NoMatch
    else
      (forall j :: 0 <= j < |ms| ==> ms[j].score <= b.score)
      && (exists k :: 0 <= k < |ms| && ms[k].score == b.score && ms[k].level == b.level
           && forall j :: 0 <= j < k ==> ms[j].score < b.score)
  }

  /** The running maximum is the first maximum (all table scores are positive,
      so the initial 0 never wins a tie). */
  lemma {:induction false} FirstMaxIsFirstMaximum(ms: seq<Rule>)
    requires forall j :: 0 <= j < |ms| ==> ms[j].score > 0.0
    ensures IsFirstMaximum(ms, FirstMax(ms))
  {
    if ms != [] {
      var init := ms[..|ms| - 1];
      var r := ms[|ms| - 1];
      FirstMaxIsFirstMaximum(init);
      var b := FirstMax(init);
      if r.score > b.score {
        assert ms[|ms| - 1].score == r.score;
        if init != [] {
          assert forall j :: 0 <= j < |init| ==> ms[j] == init[j];
        }
      } else {
        assert init != [];
        var k :| 0 <= k < |init| && init[k].score == b.score && init[k].level == b.level
          && forall j :: 0 <= j < k ==> init[j].score < b.score;
        assert ms[k] == init[k];
        assert forall j :: 0 <= j < |init| ==> ms[j] == init[j];
      }
    }
  }

  /** The first maximum is unique: the characterisation pins the pair down. */
  lemma FirstMaximumUnique(ms: seq<Rule>, b1: Best, b2: Best)
    requires IsFirstMaximum(ms, b1) && IsFirstMaximum(ms, b2)
    ensures b1 == b2
  {
    if ms != [] {
      var k1 :| 0 <= k1 < |ms| && ms[k1].score == b1.score && ms[k1].level == b1.level
        && forall j :: 0 <= j < k1 ==> ms[j].score < b1.score;
      var k2 :| 0 <= k2 < |ms| && ms[k2].score == b2.score && ms[k2].level == b2.level
        && forall j :: 0 <= j < k2 ==> ms[j].score < b2.score;
      assert b1.score == b2.score;
      assert !(k1 < k2) && !(k2 < k1);
    }
  }

  /** Every table score is positive and at most 0.9; only "chest pain" reaches 0.9. */
  lemma TableScores()
    ensures forall r :: r in TriageRules ==> 0.0 < r.score <= 0.9
    ensures forall r :: r in TriageRules && r.score == 0.9 ==> r == TriageRules[0]
  {
    forall r | r in TriageRules
      ensures 0.0 < r.score <= 0.9 && (r.score == 0.9 ==> r == TriageRules[0])
    {
      var i :| 0 <= i < |TriageRules| && TriageRules[i] == r;
      if i == 0 {
      } else if i < 5 {
        assert i == 1 || i == 2 || i == 3 || i == 4;
      } else {
        assert i == 5 || i == 6 || i == 7 || i == 8 || i == 9;
      }
    }
  }

  /** A rule is matched exactly when it is in the table and its key occurs. */
  lemma {:induction false} MatchingRulesMembers(symptomLower: string, rules: seq<Rule>)
    ensures forall r :: r in MatchingRules(symptomLower, rules) <==> r in rules && Contains(symptomLower, r.key)
  {
    if rules != [] {
      var init := rules[..|rules| - 1];
      MatchingRulesMembers(symptomLower, init);
      assert rules == init + [rules[|rules| - 1]];
    }
  }

  /** A rule is among the matches exactly when some symptom holds its key. */
  lemma {:induction false} MatchesMembers(symptoms: seq<string>)
    ensures forall r :: (r in Matches(symptoms)
      <==> r in TriageRules && exists s :: s in symptoms && Contains(Lower(s), r.key))
  {
    if symptoms != [] {
      var init := symptoms[..|symptoms| - 1];
      var last := symptoms[|symptoms| - 1];
      MembersOfSnoc(symptoms);
      assert Matches(symptoms) == Matches(init) + MatchingRules(Lower(last), TriageRules);
      MatchesMembers(init);
      MatchingRulesMembers(Lower(last), TriageRules);
      forall r
        ensures r in Matches(symptoms)
          <==> r in TriageRules && exists s :: s in symptoms && Contains(Lower(s), r.key)
      {
        if exists s :: s in symptoms && Contains(Lower(s), r.key) {
          var s :| s in symptoms && Contains(Lower(s), r.key);
          if s != last {
            assert s in init;
          }
        }
        if exists s :: s in init && Contains(Lower(s), r.key) {
          var s :| s in init && Contains(Lower(s), r.key);
          assert s in symptoms;
        }
      }
    }
  }

  /** The base score is the largest matched table score: it lies in
      (0, 0.9] when something matched and is (routine, 0) exactly when no
      symptom holds any key. */
  lemma FirstMaxOfMatches(symptoms: seq<string>)
    ensures IsFirstMaximum(Matches(symptoms), FirstMax(Matches(symptoms)))
    ensures 0.0 <= FirstMax(Matches(symptoms)).score <= 0.9
    ensures FirstMax(Matches(symptoms)) == NoMatch
      <==> forall s, r :: s in symptoms && r in TriageRules ==> !Contains(Lower(s), r.key)
  {
    MaxOfMatches(symptoms);
    NoMatchesIff(symptoms);
  }

  /** Every match is a table rule, so its score lies in (0, 0.9]. */
  lemma MatchScores(symptoms: seq<string>)
    ensures forall j :: 0 <= j < |Matches(symptoms)| ==>
      Matches(symptoms)[j] in TriageRules && 0.0 < Matches(symptoms)[j].score <= 0.9
  {
    var ms := Matches(symptoms);
    MatchesMembers(symptoms);
    TableScores();
    assert forall j :: 0 <= j < |ms| ==> ms[j] in ms;
  }

  /** The running maximum over the matches is their first maximum, within
      [0, 0.9], and is (routine, 0) exactly when nothing matched. */
  lemma MaxOfMatches(symptoms: seq<string>)
    ensures IsFirstMaximum(Matches(symptoms), FirstMax(Matches(symptoms)))
    ensures 0.0 <= FirstMax(Matches(symptoms)).score <= 0.9
    ensures FirstMax(Matches(symptoms)) == NoMatch <==> Matches(symptoms) == []
  {
    var ms := Matches(symptoms);
    MatchScores(symptoms);
    FirstMaxIsFirstMaximum(ms);
    if ms != [] {
      var b := FirstMax(ms);
      var k :| 0 <= k < |ms| && ms[k].score == b.score && ms[k].level == b.level
        && forall j :: 0 <= j < k ==> ms[j].score < b.score;
      assert 0.0 < ms[k].score <= 0.9;
    }
  }

  /** Nothing matches exactly when no symptom holds any key. */
  lemma NoMatchesIff(symptoms: seq<string>)
    ensures Matches(symptoms) == []
      <==> forall s, r :: s in symptoms && r in TriageRules ==> !Contains(Lower(s), r.key)
  {
    var ms := Matches(symptoms);
    MatchesMembers(symptoms);
    if ms != [] {
      assert ms[0] in ms;
    }
  }

  /** The base score is a table score or 0, so it lies in [0, 0.9]. */
  lemma BaseScoreBounds(symptoms: seq<string>)
    ensures 0.0 <= FirstMax(Matches(symptoms)).score <= 0.9
  {
    FirstMaxOfMatches(symptoms);
  }

  /** Any symptom mentioning "chest pain" makes the case critical with base
      score 0.9, whatever else is reported (0.9 is the table's maximum and
      belongs to that key alone). */
  lemma ChestPainIsCritical(symptoms: seq<string>, s: string)
    requires s in symptoms && Contains(Lower(s), "chest pain")
    ensures FirstMax(Matches(symptoms)) == Best(Critical, 0.9)
  {
    var ms := Matches(symptoms);
    var b := FirstMax(ms);
    ChestPainMatched(symptoms, s);
    MaxOfMatches(symptoms);
    var i :| 0 <= i < |ms| && ms[i] == TriageRules[0];
    assert b.score >= ms[i].score;
    var k :| 0 <= k < |ms| && ms[k].score == b.score && ms[k].level == b.level
      && forall j :: 0 <= j < k ==> ms[j].score < b.score;
    MatchScores(symptoms);
    TopScoreIsChestPain(ms[k]);
  }

  /** A symptom mentioning "chest pain" puts the first rule among the matches. */
  lemma ChestPainMatched(symptoms: seq<string>, s: string)
    requires s in symptoms && Contains(Lower(s), "chest pain")
    ensures TriageRules[0] in Matches(symptoms)
  {
    MatchesMembers(symptoms);
    assert TriageRules[0] in TriageRules && TriageRules[0].key == "chest pain";
  }

  /** Only the "chest pain" rule scores 0.9. */
  lemma TopScoreIsChestPain(r: Rule)
    requires r in TriageRules && r.score == 0.9
    ensures r == TriageRules[0]
  {
    TableScores();
  }

  // ----- history -----

  predicate IsRiskEntry(condition: string) {
    ContainsAny(Lower(condition), RiskTerms)
  }

  /** Number of history entries naming a risk condition. */
  function RiskCount(history: seq<string>): nat {
    if history == [] then 0
    else RiskCount(history[..|history| - 1]) + (if IsRiskEntry(history[|history| - 1]) then 1 else 0)
  }

  function MinReal(a: real, b: real): real { if a <= b then a else b }

  /** The final triage score: the base score plus one increment per risk
      entry, capped. It never falls below a non-negative base, never exceeds
      the cap, and equals the base when no entry names a risk condition. */
  function HistoryScore(base: real, riskEntries: nat): (r: real)
    ensures r <= ScoreCap
    ensures base <= ScoreCap ==> base <= r
    ensures riskEntries == 0 && base <= ScoreCap ==> r == base
  {
    MinReal(base + HistoryIncrement * riskEntries as real, ScoreCap)
  }

  /** One more risk entry in the history raises the closed-form score by one
      increment (up to the cap); other entries leave it alone. */
  lemma RiskCountAppend(history: seq<string>, entry: string)
    ensures RiskCount(history + [entry]) == RiskCount(history) + (if IsRiskEntry(entry) then 1 else 0)
  {
    assert (history + [entry])[..|history|] == history;
  }

  // ----- assessment and recommendations -----

  predicate IsRedFlag(symptom: string) {
    ContainsAny(Lower(symptom), RedFlagTerms)
  }

  /** The red-flag symptoms, in input order. */
  function RedFlags(symptoms: seq<string>): (r: seq<string>)
    ensures |r| <= |symptoms|
    ensures forall s :: s in r <==> s in symptoms && IsRedFlag(s)
  {
    if symptoms == [] then []
    else
      var init := symptoms[..|symptoms| - 1];
      var last := symptoms[|symptoms| - 1];
      assert symptoms == init + [last];
      RedFlags(init) + (if IsRedFlag(last) then [last] else [])
  }

  /** One symptom is kept exactly when it is a red flag. */
  lemma RedFlagsSingle(s: string)
    ensures RedFlags([s]) == if IsRedFlag(s) then [s] else []
  {
    assert [s][..0] == [];
  }

  /** The filter distributes over concatenation, so the red flags keep
      their input order and multiplicity. */
  lemma {:induction false} RedFlagsAppend(a: seq<string>, b: seq<string>)
    ensures RedFlags(a + b) == RedFlags(a) + RedFlags(b)
    decreases |b|
  {
    if b == [] {
      assert a + b == a;
    } else {
      var init := b[..|b| - 1];
      var last := b[|b| - 1];
      var tail := if IsRedFlag(last) then [last] else [];
      assert (a + b)[..|a + b| - 1] == a + init;
      assert (a + b)[|a + b| - 1] == last;
      RedFlagsAppend(a, init);
      assert RedFlags(a + b) == RedFlags(a + init) + tail;
      assert RedFlags(b) == RedFlags(init) + tail;
    }
  }

  function PrimaryConcern(symptoms: seq<string>): (r: string)
    ensures symptoms == [] ==> r == DefaultConcern
    ensures symptoms != [] ==> r == symptoms[0]
  {
    if symptoms != [] then symptoms[0] else DefaultConcern
  }

  function ClinicalReasoning(level: TriageLevel): string {
    "Based on reported symptoms and medical history, patient presents with " + level.Name() + " priority case."
  }

  const CriticalRecommendations: seq<string> := [
    "Immediate medical attention required",
    "Consider emergency department evaluation",
    "Monitor vital signs closely"
  ]
  const UrgentRecommendations: seq<string> := [
    "Schedule appointment within 24-48 hours",
    "Monitor symptoms for worsening",
    "Return if symptoms deteriorate"
  ]
  const RoutineRecommendations: seq<string> := [
    "Routine follow-up appropriate",
    "Self-care measures may be sufficient",
    "Schedule if symptoms persist"
  ]

  function RecommendationsFor(level: TriageLevel): seq<string> {
    match level
    case Critical => CriticalRecommendations
    case Urgent => UrgentRecommendations
    case Routine => RoutineRecommendations
  }

  /** Each level has its own three-item list: the list determines the level
      and the level determines the list. */
  lemma RecommendationsDetermineLevel(a: TriageLevel, b: TriageLevel)
    ensures |RecommendationsFor(a)| == 3
    ensures RecommendationsFor(a) == RecommendationsFor(b) <==> a == b
  {
    if a != b {
      assert RecommendationsFor(a)[0] != RecommendationsFor(b)[0];
    }
  }

  // ----- the endpoint -----

  /** The inner loop of `analyze_symptoms`: one lower-cased symptom against
      the table in order, updating the running (level, score) pair. */
  method ScoreSymptom(symptomLower: string, ghost before: seq<Rule>, level0: TriageLevel, score0: real)
    returns (level: TriageLevel, maxScore: real)
    requires Best(level0, score0) == FirstMax(before)
    ensures Best(level, maxScore) == FirstMax(before + MatchingRules(symptomLower, TriageRules))
  {
    level, maxScore := level0, score0;
    var j := 0;
    assert before + MatchingRules(symptomLower, TriageRules[..0]) == before;
    while j < |TriageRules|
      invariant 0 <= j <= |TriageRules|
      invariant Best(level, maxScore) == FirstMax(before + MatchingRules(symptomLower, TriageRules[..j]))
    {
      var rule := TriageRules[j];
      ghost var seen := before + MatchingRules(symptomLower, TriageRules[..j]);
      MatchingRulesStep(symptomLower, TriageRules, j);
      if Contains(symptomLower, rule.key) {
        assert before + MatchingRules(symptomLower, TriageRules[..j + 1]) == seen + [rule];
        FirstMaxSnoc(seen, rule);
        if rule.score > maxScore {
          maxScore := rule.score;
          level := rule.level;
        }
      } else {
        assert before + MatchingRules(symptomLower, TriageRules[..j + 1]) == seen;
      }
      j := j + 1;
    }
    assert TriageRules[..j] == TriageRules;
  }

  /** One more rule of the table: it is appended exactly when its key occurs. */
  lemma MatchingRulesStep(symptomLower: string, rules: seq<Rule>, j: nat)
    requires j < |rules|
    ensures MatchingRules(symptomLower, rules[..j + 1])
      == MatchingRules(symptomLower, rules[..j]) + (if Contains(symptomLower, rules[j].key) then [rules[j]] else [])
  {
    assert rules[..j + 1][..j] == rules[..j];
  }

  /** One more match replaces the running pair only when strictly larger. */
  lemma FirstMaxSnoc(ms: seq<Rule>, r: Rule)
    ensures FirstMax(ms + [r]) == if r.score > FirstMax(ms).score then Best(r.level, r.score) else FirstMax(ms)
  {
    assert (ms + [r])[..|ms|] == ms;
  }

  /** The history loop of `analyze_symptoms`: one increment per risk entry,
      the score capped after each. */
  method BumpForHistory(history: seq<string>, base: real) returns (score: real)
    ensures score == HistoryScore(base, RiskCount(history))
  {
    score := MinReal(base, ScoreCap);
    var k := 0;
    while k < |history|
      invariant 0 <= k <= |history|
      invariant score == MinReal(base + HistoryIncrement * RiskCount(history[..k]) as real, ScoreCap)
    {
      assert history[..k + 1][..k] == history[..k];
      if ContainsAny(Lower(history[k]), RiskTerms) {
        score := MinReal(score + HistoryIncrement, ScoreCap);
      }
      k := k + 1;
    }
    assert history[..k] == history;
  }

  /** The outer loop of `analyze_symptoms`: every symptom, lower-cased, in
      order, starting from (routine, 0). */
  method ScoreSymptoms(symptoms: seq<string>) returns (level: TriageLevel, maxScore: real)
    ensures Best(level, maxScore) == FirstMax(Matches(symptoms))
  {
    maxScore := 0.0;
    level := Routine;
    var i := 0;
    while i < |symptoms|
      invariant 0 <= i <= |symptoms|
      invariant Best(level, maxScore) == FirstMax(Matches(symptoms[..i]))
    {
      assert symptoms[..i + 1][..i] == symptoms[..i];
      assert Matches(symptoms[..i + 1]) == Matches(symptoms[..i]) + MatchingRules(Lower(symptoms[i]), TriageRules);
      level, maxScore := ScoreSymptom(Lower(symptoms[i]), Matches(symptoms[..i]), level, maxScore);
      i := i + 1;
    }
    assert symptoms[..i] == symptoms;
  }

  /** `analyze_symptoms`, with the simulated delay dropped and the random
      confidence passed in. */
  method AnalyzeSymptoms(request: SymptomAnalysisRequest, confidence: real) returns (response: SymptomAnalysisResponse)
    requires 0.7 <= confidence <= 0.95
    ensures var base := FirstMax(Matches(request.symptoms));
      && response.triageLevel == base.level
      && response.triageScore == HistoryScore(base.score, RiskCount(request.medicalHistory.GetOr([])))
    ensures 0.0 <= response.triageScore <= 1.0
    ensures response.recommendations == RecommendationsFor(response.triageLevel)
    ensures response.assessment == Assessment(
      PrimaryConcern(request.symptoms),
      request.medicalHistory.GetOr([]),
      ClinicalReasoning(response.triageLevel),
      RedFlags(request.symptoms))
    ensures response.confidence == confidence
  {
    var symptoms := request.symptoms;
    var level, maxScore := ScoreSymptoms(symptoms);
    BaseScoreBounds(symptoms);

    var score := maxScore;
    if request.medicalHistory.Some? && request.medicalHistory.value != [] {
      score := BumpForHistory(request.medicalHistory.value, maxScore);
    } else {
      assert RiskCount(request.medicalHistory.GetOr([])) == 0;
    }

    var riskFactors := request.medicalHistory.GetOr([]);
    var assessment := Assessment(PrimaryConcern(symptoms), riskFactors, ClinicalReasoning(level), RedFlags(symptoms));
    response := SymptomAnalysisResponse(level, score, assessment, RecommendationsFor(level), confidence);
  }

  // ----- properties of the analysis -----

  /** No symptom containing a rule key (the empty list included) gives the
      routine level with score 0, whatever the history holds of no risk terms. */
  lemma NoMatchIsRoutine(symptoms: seq<string>)
    requires forall s, r :: s in symptoms && r in TriageRules ==> !Contains(Lower(s), r.key)
    ensures FirstMax(Matches(symptoms)) == Best(Routine, 0.0)
  {
    FirstMaxOfMatches(symptoms);
  }
}
