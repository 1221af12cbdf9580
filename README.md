# MedFlow core in Dafny

This project models the decision logic of MedFlow, a set of small FastAPI
services for medical triage and imaging, and proves properties of it. It
covers four groups.

- **Rule-based analysis engine**, `backend/ai-service/main.py`:
  - the symptom triage scorer (`SymptomTriage`);
  - the differential-diagnosis ranker with its stable descending sort (`Differential`);
  - the image template classifier (`ImageClassifier`).
- **Model-output interpreters**, which turn a model's free text into a report:
  - the live-demo client `gradio_medgemma_service.py` (`GradioInterpreter`);
  - the Hugging Face client `medgemma_service.py` (`MedGemmaInterpreter`);
  - the keyword-table helpers both of them use (`Keywords`).
- **Demo gateway**, `demo_api.py` (`DemoGateway`): the image-type simulation
  table, the demo credential check of both login endpoints, and the
  error wrapping of the image upload.
- **Orchestration**, in four modules:
  - the api-gateway (`ApiGateway`): registration, consultations and their
    access rules, and service health;
  - the imaging service (`ImagingService`);
  - the triage service (`TriageService`);
  - the clinical service (`ClinicalService`).

Shared modules:

- `Domain` holds the enumerations of the data model, the HTTP error and result
  shapes, the outcome of a call to another service and the report shape.
- `Text` holds the string operations the services use (ASCII `lower`,
  `strip`, `split`, `join`, `replace`, substring containment, decimal
  rendering of a number) with their own lemmas.

Each call to another service is an input of type `Domain.Outcome`: a
response with its status and decoded body, a timeout, or any other
exception with its text. The database is a `Store` class holding four
sequences (users, patient profiles, provider profiles, consultations). An
id is the row's position plus one.

Imperative code is modelled as methods with loops. Each method is proved
equal to a specification function, and the properties are lemmas about that
function. These methods include:

- the nested loops of `analyze_symptoms`;
- the loop with `break` and the in-place sort of
  `generate_differential_diagnosis`;
- the findings and confidence loops of both interpreters;
- the registration and consultation writes;
- the health loop.

Numbers are modelled as follows:

- Scores and probabilities are exact `real`s.
- The Gradio client's `round(x, 1)` is modelled exactly, as round-half-even
  on tenths of the exact rational mean. A mean of at most fourteen integers
  lies exactly half-way between two tenths only when it is a multiple of
  1/4, which a float holds exactly; any other mean lies at least 1/28 of a
  tenth away from a half-way point. So the exact model and Python's float
  rounding agree.

Two behaviours of the code are worth noting:

- The history bump of `analyze_symptoms` is one increment per matching
  history entry, each followed by the cap, not one increment for the whole
  history (backend/ai-service/main.py:119-122).
- The imaging upload never returns `analysis_status` "pending": the
  status is "completed" for a 200 and "failed" otherwise
  (backend/imaging-service/main.py:94-116).

## Model

| member | source | states |
|---|---|---|
| SymptomTriage.TableScores | backend/ai-service/main.py:44-55 | every rule score lies in (0, 0.9], and only "chest pain" reaches 0.9 |
| SymptomTriage.TopScoreIsChestPain | backend/ai-service/main.py:44-55 | a table rule with score 0.9 is the "chest pain" rule |
| SymptomTriage.MatchingRulesMembers | backend/ai-service/main.py:112-113 | a rule is matched for a lowercased symptom exactly when it is in the table and its key occurs as a substring |
| SymptomTriage.Matches | backend/ai-service/main.py:110-113 | defines every (symptom, rule) match in the nested loops' order, symptoms in order and the table in insertion order within each; which rules occur is stated by MatchesMembers |
| SymptomTriage.MatchesMembers | backend/ai-service/main.py:110-116 | a rule is among the matches of the nested loops exactly when some symptom, lowercased, contains its key |
| SymptomTriage.FirstMaxIsFirstMaximum | backend/ai-service/main.py:107-116 | the pair the loop keeps with its strict `>` is the first match reaching the maximum score: no match scores higher and every earlier one scores strictly less |
| SymptomTriage.FirstMax | backend/ai-service/main.py:107-116 | defines the running (level, score) pair, replaced only by a strictly larger score; FirstMaxIsFirstMaximum states that it is the first maximum |
| SymptomTriage.FirstMaximumUnique | backend/ai-service/main.py:107-116 | the first-maximum characterisation holds for at most one (level, score) pair |
| SymptomTriage.FirstMaxSnoc | backend/ai-service/main.py:114-116 | one more match replaces the running pair only when its score is strictly larger |
| SymptomTriage.MatchScores | backend/ai-service/main.py:44-55 | every match is a table rule, so its score lies in (0, 0.9] |
| SymptomTriage.MaxOfMatches | backend/ai-service/main.py:107-116 | the final pair is the first maximum of the matches, its score lies in [0, 0.9], and it is (routine, 0) exactly when nothing matched |
| SymptomTriage.NoMatchesIff | backend/ai-service/main.py:110-116 | nothing matches exactly when no symptom contains any rule key |
| SymptomTriage.FirstMaxOfMatches | backend/ai-service/main.py:107-116 | combines the first-maximum, bounds and no-match facts for the symptom list |
| SymptomTriage.BaseScoreBounds | backend/ai-service/main.py:107-116 | the score before the history bump lies in [0, 0.9] |
| SymptomTriage.NoMatchIsRoutine | backend/ai-service/main.py:107-116 | when no symptom contains a key (the empty list included) the level is routine and the score 0 |
| SymptomTriage.ChestPainMatched | backend/ai-service/main.py:110-113 | a symptom mentioning "chest pain" puts the chest-pain rule among the matches |
| SymptomTriage.ChestPainIsCritical | backend/ai-service/main.py:44-116 | any symptom mentioning "chest pain" makes the level critical with base score 0.9, whatever else is reported |
| SymptomTriage.HistoryScore | backend/ai-service/main.py:119-122 | the bumped score is never below a base within the cap, never above 1.0, and equals the base when no entry names a risk term |
| SymptomTriage.RiskCountAppend | backend/ai-service/main.py:119-122 | each history entry naming "diabetes", "heart" or "hypertension" counts once, so the bump is per matching entry |
| SymptomTriage.RedFlags | backend/ai-service/main.py:129 | red flags are the symptoms, in input order, whose lowercase holds "chest pain", "difficulty breathing" or "severe" |
| SymptomTriage.RedFlagsSingle | backend/ai-service/main.py:129 | one symptom is kept exactly when it is a red flag |
| SymptomTriage.RedFlagsAppend | backend/ai-service/main.py:129 | the red flags of a concatenation are those of each part, in order, so the filter keeps input order and multiplicity |
| SymptomTriage.PrimaryConcern | backend/ai-service/main.py:126 | the first symptom, or "General consultation" for an empty list |
| SymptomTriage.RecommendationsFor | backend/ai-service/main.py:133-151 | defines the fixed list of each level; RecommendationsDetermineLevel states that the lists are distinct |
| SymptomTriage.RecommendationsDetermineLevel | backend/ai-service/main.py:133-151 | the three fixed recommendation lists are distinct, so the list determines the level and the level the list |
| SymptomTriage.ScoreSymptom | backend/ai-service/main.py:112-116 | the inner loop over the table updates the running pair as the first maximum of the matches seen so far |
| SymptomTriage.ScoreSymptoms | backend/ai-service/main.py:107-116 | the outer loop over the symptoms ends with the first maximum of all matches |
| SymptomTriage.BumpForHistory | backend/ai-service/main.py:119-122 | the history loop, capping after each increment, yields the closed-form bumped score |
| SymptomTriage.AnalyzeSymptoms | backend/ai-service/main.py:98-159 | the level is the first maximum's, the score is the bumped base within [0, 1], the recommendations are the level's list, the assessment has its four parts, and the confidence is the given one in [0.7, 0.95] |
| Differential.FirstContributionIsFirstMatch | backend/ai-service/main.py:241-246 | because of the `break`, a symptom contributes the list of the first key (in table order) that it contains, and nothing when it contains none |
| Differential.FirstContribution | backend/ai-service/main.py:241-246 | defines a symptom's contribution, the loop with `break` over the table; FirstContributionIsFirstMatch states it is the first contained key's list |
| Differential.NoKeyNoContribution | backend/ai-service/main.py:241-246 | a symptom containing no key contributes nothing |
| Differential.FirstKeyContributes | backend/ai-service/main.py:241-246 | a symptom whose first contained key is at index k contributes exactly that key's list |
| Differential.ContributionEmptyIff | backend/ai-service/main.py:217-246 | every table list is non-empty, so a symptom contributes nothing exactly when it holds no key |
| Differential.ChestPainTakesPrecedence | backend/ai-service/main.py:217-246 | a symptom naming "chest pain" contributes the chest-pain list whatever else it names |
| Differential.AccumulatedSkipsUnmatched | backend/ai-service/main.py:241-246 | a symptom naming no key leaves the pool unchanged |
| Differential.CollectDiagnoses | backend/ai-service/main.py:240-246 | the loop with `break` builds the pool: each symptom's first-match contribution, in symptom order |
| Differential.Accumulated | backend/ai-service/main.py:240-246 | defines the pool as each symptom's contribution in symptom order; CollectDiagnoses is proved to build it |
| Differential.NoKeyMeansEmptyPool | backend/ai-service/main.py:240-249 | the collected pool is empty exactly when no symptom names a key of the table |
| Differential.Pool | backend/ai-service/main.py:249-253 | the default pair replaces an empty pool, and a non-empty pool is kept |
| Differential.InsertPermutes | backend/ai-service/main.py:256 | one insertion step of the stable descending sort adds exactly the inserted candidate |
| Differential.InsertKeepsSorted | backend/ai-service/main.py:256 | inserting into a list sorted by non-increasing probability keeps it sorted |
| Differential.InsertStable | backend/ai-service/main.py:256 | the inserted candidate lands after every earlier candidate of the same probability |
| Differential.InsertPosition | backend/ai-service/main.py:256 | the insertion puts the candidate after the last one at least as likely, before the trailing run of less likely ones |
| Differential.SortPermutes | backend/ai-service/main.py:256 | `sort(key=probability, reverse=True)` is a permutation of the pool |
| Differential.SortSorts | backend/ai-service/main.py:256 | the sorted list has non-increasing probability |
| Differential.SortStable | backend/ai-service/main.py:256 | the sort is stable: candidates of each probability keep their pool order |
| Differential.InsertInPlace | backend/ai-service/main.py:256 | one in-place pass moves `a[i]` left past the strictly less likely candidates, which is the insertion step on the prefix, and leaves the rest alone |
| Differential.SortByProbability | backend/ai-service/main.py:256 | the in-place array sort yields the stable descending sort of its old contents |
| Differential.GenerateDifferentialDiagnosis | backend/ai-service/main.py:239-274 | the returned diagnoses are the stably sorted pool cut to five, and the confidence is the given one in [0.75, 0.92] |
| Differential.Ranked | backend/ai-service/main.py:249-271 | defines the answer as the stably sorted pool cut to five; RankedIsTopOfPool and RankedKeepsPoolOrder state its properties |
| Differential.TakeOfSorted | backend/ai-service/main.py:271 | a prefix of a sorted list is sorted, a sub-multiset of it, and no dropped candidate is more likely than a kept one |
| Differential.RankedIsTopOfPool | backend/ai-service/main.py:256-271 | the ranking has at most five candidates (exactly five when the pool has five), is sorted, comes from the pool, and no dropped candidate is more likely than a kept one |
| Differential.RankedKeepsPoolOrder | backend/ai-service/main.py:256-271 | among candidates of equal probability the ranking keeps accumulation order |
| Differential.NoMatchGivesDefault | backend/ai-service/main.py:240-256 | when no symptom names a key of the table (an empty list included) the answer is General Medical Consultation (0.60) then Viral Syndrome (0.40) |
| ImageClassifier.LookupTemplates | backend/ai-service/main.py:171 | the template lookup gives the skin variants for "skin" and the x-ray variants for everything else |
| ImageClassifier.TemplatesFor | backend/ai-service/main.py:171 | the variants are always those of one of the two categories |
| ImageClassifier.TemplatesForIsExactWithFallback | backend/ai-service/main.py:171 | the lookup is exact and case-sensitive: only "skin" selects skin, every other type falls back to "xray" |
| ImageClassifier.AnalyzeImage | backend/ai-service/main.py:171-205 | findings, confidence and review flag come from the chosen variant, the analysis echoes the type and the variant's findings, and the recommendations follow the review flag |
| ImageClassifier.ReviewListIffReview | backend/ai-service/main.py:186-198 | the review recommendations are returned exactly when the variant requires review |
| ImageClassifier.RecommendationsFor | backend/ai-service/main.py:186-198 | defines the review list for a variant needing review and the routine list otherwise; ReviewListIffReview states the correspondence |
| ImageClassifier.VariantBounds | backend/ai-service/main.py:57-87 | every variant's confidence lies in [0.72, 0.92], it has at least two findings, and a variant needing review is less confident than its category's normal one |
| ImageClassifier.UnknownTypeAnalysedAsXRay | backend/ai-service/main.py:171-205 | an unknown type is analysed exactly as "xray", apart from the echoed image type |
| Keywords.ScoresPresent | gradio_medgemma_service.py:177-179 | at most one score per table keyword |
| Keywords.ScoresPresentFacts | gradio_medgemma_service.py:177-181 | no score is collected exactly when no keyword occurs, and every collected score keeps the table's bounds |
| Keywords.SumBounds | gradio_medgemma_service.py:182 | a sum of n scores within [lo, hi] lies within [lo·n, hi·n] |
| Keywords.MeanBounds | medgemma_service.py:169 | the mean of a non-empty list of scores within [lo, hi] lies within [lo, hi] |
| Keywords.CollectScores | gradio_medgemma_service.py:175-179 | the keyword loop collects the scores of the keywords present, in table order, once each |
| Keywords.PriorityIff | gradio_medgemma_service.py:186-195 | HIGH exactly when a high term occurs, MODERATE exactly when a moderate term occurs and no high term does, LOW otherwise |
| Keywords.PriorityMonotone | gradio_medgemma_service.py:186-195 | more text never lowers the priority |
| GradioInterpreter.CreatePromptFacts | gradio_medgemma_service.py:90-102 | the prompt ignores letter case, "xray"/"x-ray" share the x-ray prompt, "skin"/"dermatology" share one, and an unknown type gets the x-ray prompt |
| GradioInterpreter.CreatePrompt | gradio_medgemma_service.py:90-102 | defines the lookup on the lowercased type with the x-ray prompt as fallback; CreatePromptFacts states its cases |
| GradioInterpreter.Sentences | gradio_medgemma_service.py:141 | splitting the text after replacing newlines always gives at least one piece |
| GradioInterpreter.IndicatorPass | gradio_medgemma_service.py:143-154 | the first loop collects the stripped pieces longer than 15 characters that name an indicator, prefixed "🔬 ", in order |
| GradioInterpreter.LeadPass | gradio_medgemma_service.py:157-161 | the second loop collects, from at most the first three pieces, those longer than 20 characters after stripping, prefixed "📋 " |
| GradioInterpreter.ExtractFindingsFromText | gradio_medgemma_service.py:136-163 | the indicator pass, then the lead pass only when it found nothing, then the default line |
| GradioInterpreter.Findings | gradio_medgemma_service.py:136-163 | defines the findings: the indicator pass, else the lead pass, else the default line; ExtractFindingsFromText is proved to return them and FindingsShape states their shape |
| GradioInterpreter.IndicatorFindingsFromSentences | gradio_medgemma_service.py:143-154 | every first-pass finding is the finding of one of the pieces |
| GradioInterpreter.IndicatorFindingsKeepSentences | gradio_medgemma_service.py:143-154 | every qualifying piece contributes its finding |
| GradioInterpreter.IndicatorFindingsMembers | gradio_medgemma_service.py:143-154 | the first pass holds exactly the findings of the qualifying pieces |
| GradioInterpreter.IndicatorFindingsShape | gradio_medgemma_service.py:145-154 | every first-pass finding carries the indicator prefix and a piece longer than 15 characters |
| GradioInterpreter.IndicatorFindingShape | gradio_medgemma_service.py:144-154 | one piece's finding carries the prefix and a piece longer than 15 characters |
| GradioInterpreter.LeadFindingsShape | gradio_medgemma_service.py:157-161 | the lead pass gives at most one finding per piece, each prefixed and longer than 20 characters after the prefix |
| GradioInterpreter.FindingsShape | gradio_medgemma_service.py:136-163 | the findings are never empty and are all indicator findings, or at most three lead findings, or the single default line; indicator findings win when there are any |
| GradioInterpreter.RoundHalfEven | gradio_medgemma_service.py:182 | the result is the integer nearest the quotient, ties going to the even neighbour |
| GradioInterpreter.RoundBounds | gradio_medgemma_service.py:182 | rounding keeps integer bounds of the quotient |
| GradioInterpreter.CalculateConfidenceFromText | gradio_medgemma_service.py:165-184 | the loop and the rounding give the specified confidence |
| GradioInterpreter.ConfidenceBounds | gradio_medgemma_service.py:165-184 | the confidence always lies in [40, 92] |
| GradioInterpreter.ConfidenceOfFewKeywords | gradio_medgemma_service.py:177-184 | no keyword gives 82.5, and a single keyword gives its own score |
| GradioInterpreter.PriorityPrecedence | gradio_medgemma_service.py:186-195 | HIGH exactly when a high term (acute included) occurs, MODERATE exactly when a moderate term (lesion included) occurs and no high one does, LOW otherwise |
| GradioInterpreter.AssessPriority | gradio_medgemma_service.py:186-195 | defines the priority from the high and moderate terms; PriorityPrecedence states which wins |
| GradioInterpreter.RecommendationPrecedence | gradio_medgemma_service.py:197-208 | the four branches are tried in order: follow/correlation, then normal and routine, then specialist/referral, then the default; each wins exactly under its condition |
| GradioInterpreter.ExtractRecommendation | gradio_medgemma_service.py:197-208 | defines the first branch whose terms occur; RecommendationPrecedence states each branch's condition |
| GradioInterpreter.FallbackErrorLine | gradio_medgemma_service.py:210-227 | the error line holds the first 100 characters of the message followed by "...", and the fallback has confidence 75 and priority MODERATE |
| GradioInterpreter.FallbackResponse | gradio_medgemma_service.py:210-227 | defines the fallback report with the cut error message; FallbackErrorLine states the cut and its confidence and priority |
| GradioInterpreter.ParseGradioResponse | gradio_medgemma_service.py:104-130 | a falsy result is read as "No analysis available"; the report is built from that text |
| GradioInterpreter.AnalyzeMedicalImage | gradio_medgemma_service.py:22-88 | a returned result is parsed, and any exception gives the fallback carrying its message |
| GradioInterpreter.AnalysisOf | gradio_medgemma_service.py:22-88 | defines the report for how the call ended: a result is parsed, an exception gives the fallback; AnalyzeMedicalImage is proved to return it |
| GradioInterpreter.ParsedReportFacts | gradio_medgemma_service.py:104-134 | a parsed report is never a fallback report, always has findings, and has confidence in [40, 92] |
| MedGemmaInterpreter.CreatePromptIsExact | medgemma_service.py:86-96 | the lookup is exact and case-sensitive, so "xray", "ct" and every other spelling get the X-Ray prompt |
| MedGemmaInterpreter.CreatePrompt | medgemma_service.py:86-96 | defines the exact, case-sensitive lookup with the X-Ray prompt as fallback; CreatePromptIsExact states its cases |
| MedGemmaInterpreter.CollectSentenceFindings | medgemma_service.py:147-152 | the loop over the first three pieces keeps those longer than 20 characters after stripping that name a term, prefixed "📋 " |
| MedGemmaInterpreter.ExtractFindings | medgemma_service.py:132-154 | the four tag tests in their fixed order, then the sentence findings, then the default line |
| MedGemmaInterpreter.SentenceFindingsShape | medgemma_service.py:147-152 | at most one sentence finding per piece, each prefixed |
| MedGemmaInterpreter.FindingsShape | medgemma_service.py:132-154 | the findings are never empty, at most seven, and start with the tags unless they are the default line |
| MedGemmaInterpreter.AbnormalAlsoTagsNormal | medgemma_service.py:137-140 | a text saying "abnormal" also gets the "normal" tag, just before the abnormality tag |
| MedGemmaInterpreter.CalculateConfidence | medgemma_service.py:156-169 | the loop gives the exact mean of the scores of the keywords present, or 82.5 |
| MedGemmaInterpreter.ConfidenceBounds | medgemma_service.py:156-169 | the confidence always lies in [40, 92] |
| MedGemmaInterpreter.PriorityPrecedence | medgemma_service.py:171-178 | HIGH over MODERATE over LOW, each exactly under its condition |
| MedGemmaInterpreter.AssessPriority | medgemma_service.py:171-178 | defines the priority from the high and moderate terms; PriorityPrecedence states which wins |
| MedGemmaInterpreter.RecommendationPrecedence | medgemma_service.py:180-187 | follow-up first, then normal, else specialist; the three messages are distinct |
| MedGemmaInterpreter.ExtractRecommendation | medgemma_service.py:180-187 | defines the first of the three messages whose terms occur; RecommendationPrecedence states each condition |
| MedGemmaInterpreter.ParseMedGemmaResponse | medgemma_service.py:98-130 | a non-empty list is read through its first element's `generated_text`, anything else is stringified, and a failing extraction gives the fallback |
| MedGemmaInterpreter.GeneratedText | medgemma_service.py:100-105 | defines the text analysed: the first element's `generated_text` for a non-empty list, `str(...)` otherwise, none when reading it raises; ParseMedGemmaResponse uses it |
| MedGemmaInterpreter.ParsedReportConfidence | medgemma_service.py:108-126 | a parsed report has confidence in [40, 92] and findings |
| MedGemmaInterpreter.AnalyzeMedicalImage | medgemma_service.py:72-84 | the report is the dispatch on how the request ended |
| MedGemmaInterpreter.DispatchByStatus | medgemma_service.py:72-84 | 200 with a readable body is parsed, 503 gives the loading report (confidence 0, PENDING), and every other status, a timeout or an exception gives the fallback (75, MODERATE) |
| MedGemmaInterpreter.Dispatch | medgemma_service.py:72-84 | defines the report for how the request ended; DispatchByStatus states its three cases |
| MedGemmaInterpreter.DispatchCases | medgemma_service.py:72-84 | the same three cases, as one case split |
| MedGemmaInterpreter.DispatchParsed | medgemma_service.py:72-74 | a 200 with a readable body gives the parsed report |
| MedGemmaInterpreter.DispatchFallback | medgemma_service.py:78-84 | any other status, a timeout or an exception gives exactly the fallback report |
| MedGemmaInterpreter.ModelNamesDistinct | medgemma_service.py:114-210 | the parsed, loading and fallback reports carry three different model names |
| MedGemmaInterpreter.LoadingShape | medgemma_service.py:189-205 | the loading report has confidence 0 and priority PENDING |
| MedGemmaInterpreter.LoadingResponse | medgemma_service.py:189-205 | defines the loading report; LoadingShape states its confidence and priority |
| MedGemmaInterpreter.FallbackShape | medgemma_service.py:207-223 | the fallback report has confidence 75 and priority MODERATE |
| MedGemmaInterpreter.FallbackResponse | medgemma_service.py:207-223 | defines the fallback report; FallbackShape states its confidence and priority |
| DemoGateway.GroupsDisjoint | demo_api.py:236-291 | the four type groups share no type |
| DemoGateway.SimulationOfGroups | demo_api.py:236-308 | each group, tested on the lowercased type, answers with its own analysis |
| DemoGateway.SimulationIsLow | demo_api.py:236-308 | every group's analysis has priority LOW |
| DemoGateway.SimulationByMembership | demo_api.py:236-325 | priority LOW exactly for a recognised type, MODERATE exactly otherwise; an unrecognised type gets the general analysis with confidence 82.4 and the input type echoed in the technical details |
| DemoGateway.MembershipIsExact | demo_api.py:236-325 | membership is on whole lowercased types: "Chest X-Ray" is an x-ray, "chest ct" gets the general analysis |
| DemoGateway.AnalyzeWithMedGemma | demo_api.py:233-325 | defines the simulation: the first group holding the lowercased type, else the general analysis; SimulationByMembership states its cases |
| DemoGateway.AuthenticateIff | demo_api.py:108-124 | a token is issued exactly for a known email with its password; it is "demo_token_" and the id, type "bearer", with the user's id, email, name and role; anything else is 401 |
| DemoGateway.TokensIdentifyUsers | demo_api.py:108-119 | distinct users get distinct tokens |
| DemoGateway.Authenticate | demo_api.py:108-124 | defines the credential check both logins share; AuthenticateIff states when a token is issued |
| DemoGateway.LoginOutcomes | demo_api.py:71-128 | a token exactly for readable, non-empty, valid credentials; 401 exactly for readable, non-empty, invalid ones; 400 otherwise |
| DemoGateway.LoginRejectsMissing | demo_api.py:104-105 | a missing or empty username or password is a 400 |
| DemoGateway.UsernamePrecedence | demo_api.py:79-101 | in JSON a present "username" wins even when empty; a form falls back to "email" when "username" is empty |
| DemoGateway.LoginAgreesWithOauth | demo_api.py:134-156 | for a form with a non-empty username and password, both login endpoints answer the same |
| DemoGateway.ExtractCredentials | demo_api.py:76-101 | defines how `login` reads the credentials by content type; UsernamePrecedence states which key wins |
| DemoGateway.Login | demo_api.py:71-128 | defines `login`; LoginOutcomes states its three outcomes |
| DemoGateway.LoginOauth | demo_api.py:134-156 | defines `login_oauth`; LoginAgreesWithOauth relates it to `login` |
| DemoGateway.UploadWithoutFile | demo_api.py:202-203 | a missing file gives the error body naming the 400, not an exception |
| DemoGateway.UploadFailsSoftly | demo_api.py:194-231 | every failure is an error body whose message starts with "MedGemma analysis failed: "; the upload is analysed exactly when the form is readable, holds an image and its type is text |
| DemoGateway.UploadSucceeds | demo_api.py:194-226 | a successful upload is "analyzed", id 123, named "medgemma_real_" + lowercased type + ".jpeg", and carries the live analysis or else the simulated one |
| DemoGateway.DefaultUploadIsXRay | demo_api.py:199-226 | with no type and no live demo, the upload is analysed as an x-ray and named "medgemma_real_x-ray.jpeg" |
| DemoGateway.UploadImage | demo_api.py:194-231 | defines the upload with every failure as an error body; UploadFailsSoftly and UploadSucceeds state its outcomes |
| ApiGateway.FindPatientProfile | backend/api-gateway/main.py:146 | a profile is found exactly when one has the user's id, and it is a stored one |
| ApiGateway.FindConsultation | backend/api-gateway/main.py:203 | a consultation is found exactly when one has the id, and it is a stored one |
| ApiGateway.OwnConsultations | backend/api-gateway/main.py:190 | exactly the stored consultations of the patient |
| ApiGateway.FindFirst | backend/api-gateway/main.py:146 | `.filter(...).first()`: a row is found exactly when one has the key, and it is the first such row |
| ApiGateway.TriageRequestFor | backend/api-gateway/main.py:161-165 | defines the request sent to triage; TriageRequestKeepsText states that splitting keeps the text |
| ApiGateway.Triaged | backend/api-gateway/main.py:170-175 | defines the consultation after the triage call; TriagedChangesOnlyTriageFields states what changes |
| ApiGateway.TriageRequestKeepsText | backend/api-gateway/main.py:161-165 | symptoms and history are split on "," without trimming: joining the pieces gives the text back, one piece more than there are commas |
| ApiGateway.TriagedChangesOnlyTriageFields | backend/api-gateway/main.py:170-175 | only a 200 changes the consultation, and then only its triage level, score and assessment |
| ApiGateway.AddUserKeepsUsers | backend/api-gateway/main.py:51-68 | a user with a fresh email and the next id keeps ids and emails consistent |
| ApiGateway.AddUserKeepsPatients | backend/api-gateway/main.py:71-74 | a patient gets one patient profile and the profiles stay consistent |
| ApiGateway.AddUserKeepsProviders | backend/api-gateway/main.py:75-78 | a physician, nurse or specialist gets one provider profile and the profiles stay consistent |
| ApiGateway.AddUserKeepsTables | backend/api-gateway/main.py:51-78 | registering with the profile of the role keeps every table consistent |
| ApiGateway.AddConsultationKeepsTables | backend/api-gateway/main.py:150-156 | a consultation with the next id and an existing patient keeps the table consistent |
| ApiGateway.RegisteredPatientHasProfile | backend/api-gateway/main.py:71-74 | a freshly registered patient finds the profile made for them |
| ApiGateway.Store.constructor | backend/api-gateway/main.py:35-37 | the tables start empty and consistent |
| ApiGateway.Store.Register | backend/api-gateway/main.py:48-80 | a taken email is a 400 and changes nothing; otherwise the user is added with a patient profile, a provider profile or none, by role |
| ApiGateway.Store.AddConsultation | backend/api-gateway/main.py:150-175 | the pending consultation is appended with the next id, and only a 200 from triage sets its triage fields |
| ApiGateway.Store.CreateConsultation | backend/api-gateway/main.py:136-179 | 403 for non-patients, then 404 without a profile; otherwise the consultation is stored and returned whatever the triage call did, and the triage request is sent |
| ApiGateway.Store.GetConsultations | backend/api-gateway/main.py:181-195 | every consultation returned is stored, and the only error is a patient without a profile |
| ApiGateway.Store.GetConsultation | backend/api-gateway/main.py:197-213 | a returned consultation is stored under the requested id, and a refusal is only ever for a patient |
| ApiGateway.ConsultationsVisible | backend/api-gateway/main.py:181-195 | a patient sees exactly their own consultations (404 without a profile); other roles see all |
| ApiGateway.ConsultationAccess | backend/api-gateway/main.py:197-213 | 404 when absent; a patient may see it only when it belongs to their profile (403 otherwise); other roles see any |
| ApiGateway.SingleAccessAgreesWithList | backend/api-gateway/main.py:181-213 | what one may open by id is in the list one is shown |
| ApiGateway.ClassifyIff | backend/api-gateway/main.py:249-259 | healthy with its body exactly for a 200, unhealthy for another status, unreachable for an exception |
| ApiGateway.GetServicesStatus | backend/api-gateway/main.py:235-261 | one classified entry per service, in order, probing `<url>/health` |
| ApiGateway.ServiceNamesDistinct | backend/api-gateway/main.py:237-243 | exactly five services with distinct names |
| ApiGateway.Classify | backend/api-gateway/main.py:249-259 | healthy exactly for a 200, unreachable exactly for an exception |
| ImagingService.ExtensionShape | backend/imaging-service/main.py:73 | the extension is a suffix, empty or a dot followed by neither dots nor slashes, and non-empty exactly when the last component has a dot after a non-dot character |
| ImagingService.ExtensionExamples | backend/imaging-service/main.py:73 | "scan.png" gives ".png", "a.tar.gz" gives ".gz", ".bashrc" and "noext" give nothing |
| ImagingService.PlainExtension | backend/imaging-service/main.py:73 | "scan.png" gives ".png" |
| ImagingService.LastSuffixOnly | backend/imaging-service/main.py:73 | "a.tar.gz" gives ".gz" |
| ImagingService.LeadingDotOnly | backend/imaging-service/main.py:73 | ".bashrc" gives no extension |
| ImagingService.Extension | backend/imaging-service/main.py:73 | defines `os.path.splitext(...)[1]` on POSIX; ExtensionShape states its shape |
| ImagingService.ObjectNaming | backend/imaging-service/main.py:72-91 | the object is `type/<id><extension>` and the URL is the MinIO address, the bucket and the object name |
| ImagingService.UploadUrlPrefix | backend/imaging-service/main.py:91 | the upload URL is "http://minio:9000/medical-images/" followed by the object name |
| ImagingService.ObjectName | backend/imaging-service/main.py:72-75 | defines the object name `type/<id><extension>`; ObjectNaming states its parts |
| ImagingService.AnalysisStatusTriState | backend/imaging-service/main.py:94-116 | "completed" exactly for a 200, "failed" otherwise, never "pending" |
| ImagingService.AnalysisStatusFor | backend/imaging-service/main.py:94-116 | defines the recorded trigger status; AnalysisStatusTriState states its cases |
| ImagingService.UploadImage | backend/imaging-service/main.py:60-135 | storage errors give 500 "Image upload failed", other errors 500 "Upload processing failed"; otherwise the response is returned whatever the trigger call did, and the trigger is sent only after storing |
| ImagingService.GetImageAnalysis | backend/imaging-service/main.py:137-183 | a result exactly for a 200, and it echoes the requested id |
| ImagingService.ErrorMapping | backend/imaging-service/main.py:137-183 | a result exactly for a 200, 504 exactly for a timeout, 500 for every other failure |
| ImagingService.NonOkStatusDetail | backend/imaging-service/main.py:157-161 | a non-200 is the inner 500 re-wrapped by the generic handler |
| ImagingService.CopiesResult | backend/imaging-service/main.py:163-172 | the id is echoed and the five analysis fields are copied |
| ImagingService.RetrievedAnalysisIsXRay | backend/imaging-service/main.py:146-172 | the fixed request has type "xray", so the analysis is an x-ray variant with confidence in [0.72, 0.92] and review list iff review |
| TriageService.AiRequestFor | backend/triage-service/main.py:41-45 | symptoms, history and vital signs are forwarded unchanged |
| TriageService.AnalyzeTriage | backend/triage-service/main.py:33-79 | a result exactly for a 200, and it carries the request's consultation id |
| TriageService.ErrorMapping | backend/triage-service/main.py:33-79 | a result exactly for a 200, 504 exactly for a timeout, 500 (with the failure prefix) for every other failure |
| TriageService.NonOkStatusDetail | backend/triage-service/main.py:53-79 | a non-200 is the inner 500 re-wrapped by the generic handler |
| TriageService.CopiesResult | backend/triage-service/main.py:61-68 | the consultation id comes from the request and the five other fields from the ai-service |
| TriageService.ForwardedAnalysis | backend/triage-service/main.py:59-68 | a forwarded analysis has a score in [0, 1] and the recommendations of its level |
| ClinicalService.GenerateDiagnosis | backend/clinical-service/main.py:29-48 | the body posted to the ai-service is the request itself, and a result comes exactly for a 200 |
| ClinicalService.ErrorMapping | backend/clinical-service/main.py:29-48 | the body is passed through exactly for a 200, 504 exactly for a timeout, 500 for a non-200 or any other failure |
| ClinicalService.NonOkStatusDetail | backend/clinical-service/main.py:40-48 | a non-200 is the inner 500 re-wrapped by the generic handler |
| ClinicalService.ForwardedDiagnosis | backend/clinical-service/main.py:34-42 | when the ai-service ranks the forwarded symptoms, the 200 body is passed on with at most five candidates, most likely first, and the default pair when no symptom names a key |
| Domain.NamesDistinct | backend/shared/models.py:14-24 | the triage-level and image-type names are distinct, so each value is recovered from its name |

## Left out

- Artificial delays (`time.sleep`) are dropped.
- Random confidences (`random.uniform`) are inputs, required to lie in the source's range.
- The random variant pick of `analyze_image` is an index the caller supplies.
- Network clients are not modelled: the Gradio client and its temporary
  file, the Hugging Face request, PIL resizing and base64, and the
  httpx calls. Each call is an `Outcome` input.
- The MinIO client, bucket creation and the presigned download are not
  modelled. Storage is an input that succeeds or fails.
- `MINIO_URL` is the constant "minio:9000", although the environment can override it.
- ORM sessions, `shared.auth` and password hashing are not modelled: the hash is an input.
- The gateway's own login and the patient-profile endpoints are not modelled.
- The gateway's image forwarding is not modelled: it is an unguarded pass-through.
- The patient service and the constant mock endpoints are not modelled
  (queues, stats, model status, the demo consultations).
- The prose `reasoning` of the differential diagnosis is not modelled. It is cosmetic.
- Floats are exact reals. Python float addition and division can differ in the last bits.
- `lower()` and `strip()` are ASCII-only approximations of Python's Unicode operations.
- Only JSON objects are modelled as login bodies. Values that are not
  strings are not modelled.
- The triage assessment is stored as the returned value, not as `str(...)` of it.
- A triage body missing a field (a `KeyError` after some fields are set) is not modelled.
- A 200 whose body cannot be decoded is modelled as a `Failure` with the exception's text.
- Response-model validation by FastAPI is not modelled.
- The live demo service of `demo_api.py` is an input: present with how its call ended, or absent.
- CORS, startup and health-check literals are cosmetic and not modelled.
