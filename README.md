# Course recommendation back end — a Dafny model

This project models the core of a course-recommendation web service. A visitor
answers a questionnaire, and each answer option carries a weight for each of five
technical courses: TI, Enfermagem, Logística, Administração and Estética. The
service adds the weights up, normalises them to percentages and may let a
classifier boost one course. It then recommends the course with the largest
score and a confidence value, and stores everything in the database.
Administrators can edit and retire questions, switch user accounts on and off,
and read aggregate statistics.

The model has six modules:

- `Common` holds `Option`, `Result` and the HTTP status codes.
- `Scoring` models the scorer of `backend/app/ml/service.py`:
  - the feature row;
  - the weighted scores, computed with the service's own loops;
  - the boost;
  - the recommended course;
  - the confidence;
  - the fallback answer.
  Python dictionaries become association lists in insertion order. A `None`
  value stands for the `TypeError` that the service's `try` turns into the
  fallback answer. The scaler and random forest become one optional function
  from a feature row to a class index or a failure.
- `ScoringProperties` proves what the scorer promises:
  - scores add up to 100;
  - each score lies in [0, 100];
  - empty input gives zeros;
  - the tie rule;
  - the fallback happens exactly when something raises.
- `Records` holds the table rows of `backend/app/models/__init__.py` and the database. The database is a class whose tables are sequences and whose auto-increment counters are fields.
- `Questionnaire` covers the public endpoints:
  - active questions in order, including the seeding of the sample questions;
  - submission of a session's answers;
  - lookup of a stored result.
- `Admin` covers the administration endpoints:
  - the admin gate;
  - partial question update;
  - deactivate-or-delete;
  - user status toggle;
  - response analytics.

Handlers are module-level methods that take the `Database` object as an argument and
modify it. Clocks are parameters: `elapsedMs` is the
measured processing time and `createdAt` is the database timestamp, in seconds.

## Model

| member | source | states |
|---|---|---|
| Scoring.FeatureVector | backend/app/ml/service.py:95-111 | defines the feature row (triples of question id, option id and time, padded with 0 or truncated to the target length); `FeatureVectorAt` proves its length and entries |
| Scoring.FeatureVectorAt | backend/app/ml/service.py:95-111 | the feature row has the target length; entry `i` is field `i % 3` (question id, option id, response time, 0 when absent) of response `i / 3`, and 0 past the responses |
| Scoring.PreprocessResponses | backend/app/ml/service.py:90-113 | the extend-then-pad-or-truncate loop yields exactly the feature row of length `len(feature_names)`, or 20 without names |
| Scoring.Find | backend/app/ml/service.py:139 | `d.get(key)` finds a value exactly when the key is present, and the value found is stored under that key |
| Scoring.SumValues | backend/app/ml/service.py:141 | `sum(weights.values())` raises exactly when some value is `None` |
| Scoring.CourseWeight | backend/app/ml/service.py:137-139 | the looked-up weight (`weight_<c>`, then `<c>`, then 5.0) raises only when the dictionary holds a `None`, so the total raises too |
| Scoring.RaisingResponse | backend/app/ml/service.py:139-141 | one dictionary holding a `None` makes the whole calculation raise |
| Scoring.WeightedScores | backend/app/ml/service.py:115-148 | defines `calculate_weighted_scores`: `None` when a weight raises, else the raw course scores normalised by the total; `WeightedScoresSum` and `WeightedScoresBounded` prove its sum and bounds, `FallbackExactlyOnFailure` its raise case |
| Scoring.CalculateWeightedScores | backend/app/ml/service.py:115-148 | the nested loops compute exactly the weighted scores, five of them, or raise exactly when some weight dictionary holds a `None` |
| Scoring.AddResponseWeights | backend/app/ml/service.py:137-139 | the course loop adds each course's weight from one response to its score, or raises |
| Scoring.NormaliseScores | backend/app/ml/service.py:143-146 | each score becomes score / total × 100 when the total is positive, and is left unchanged otherwise |
| Scoring.BoostedCourse | backend/app/ml/service.py:168-181 | the course a classifier index boosts is always one of the five |
| Scoring.BoostedCourseName | backend/app/ml/service.py:20-26 | a known index boosts the course `course_mapping` names; an unknown one boosts TI |
| Scoring.Boost | backend/app/ml/service.py:171-181 | defines the classifier's boost of one course by 1.2; `BoostChangesOneScore` proves which score changes and by how much |
| Scoring.BoostChangesOneScore | backend/app/ml/service.py:171-181 | only the predicted course's score is multiplied by 1.2; the other four are unchanged and the sum grows by a fifth of that score |
| Scoring.BoostInPlace | backend/app/ml/service.py:172-181 | the in-place `*= 1.2` on the score dictionary, the loop form of `Boost`: it yields exactly `Boost` of the old scores |
| Scoring.ArgMax | backend/app/ml/service.py:184 | the recommended position holds a maximal score, and every earlier position holds a strictly smaller one (ties go to the first key) |
| Scoring.SecondLargest | backend/app/ml/service.py:196 | the second entry of the descending sort is a score at another position and is at least every score except the maximum's |
| Scoring.Clamp | backend/app/ml/service.py:198 | the clamped value lies in [0.1, 1.0] and is the value itself when already inside |
| Scoring.Confidence | backend/app/ml/service.py:196-198 | the confidence lies in [0.1, 1.0]; it is 1.0 when the top gap is at least 100 and 0.1 when it is at most 10 |
| Scoring.Recommendation | backend/app/ml/service.py:183-212 | defines the answer built from five scores: the display name of the first maximal key, the clamped confidence and version "1.0.0"; `ArgMax`, `Confidence` and `Classification` state its properties |
| Scoring.Classification | backend/app/ml/service.py:150-231 | every answer has five scores, version "1.0.0", confidence in [0.1, 1.0] and the display name of its maximal score |
| Scoring.ClassifyResponses | backend/app/ml/service.py:150-231 | the step-by-step method returns exactly the classification |
| ScoringProperties.FindAt | backend/app/ml/service.py:139 | in a dictionary, looking up an entry's key finds that entry's value |
| ScoringProperties.SumValuesWithoutNone | backend/app/ml/service.py:141 | without `None` values, the sum is the sum of the values |
| ScoringProperties.KeyedSumCoversAll | backend/app/ml/service.py:141 | when every key is among distinct keys `ks`, summing by `ks` gives the sum of all values |
| ScoringProperties.NoPrefixedKey | backend/app/ml/service.py:138-139 | a course-keyed dictionary has no `weight_` key, so the fallback lookup by plain key is used |
| ScoringProperties.CourseWeightOfCourseKeyed | backend/app/ml/service.py:139 | in a course-keyed dictionary, each course's weight is the value under its own key |
| ScoringProperties.ContributionsAddUp | backend/app/ml/service.py:137-141 | a course-keyed dictionary contributes to the five scores exactly what it adds to the total |
| ScoringProperties.NoRaiseWhenCourseKeyed | backend/app/ml/service.py:127-141 | course-keyed dictionaries never make the calculation raise |
| ScoringProperties.RawScoresAddUpToTotal | backend/app/ml/service.py:127-141 | with course-keyed dictionaries, the five raw scores add up to the total weight |
| ScoringProperties.RawScoreNonNegative | backend/app/ml/service.py:137-139 | with non-negative weights every raw score is non-negative |
| ScoringProperties.PercentOfTotal | backend/app/ml/service.py:144-146 | five parts of a positive total, each as a percentage of it, add up to 100 |
| ScoringProperties.PercentBounds | backend/app/ml/service.py:146 | a part between 0 and the total is between 0 and 100 percent |
| ScoringProperties.WeightedScoresSum | backend/app/ml/service.py:115-148 | with course-keyed dictionaries, the scores add up to 100 when the total is positive, and to the total otherwise |
| ScoringProperties.NormaliseBounded | backend/app/ml/service.py:143-146 | non-negative scores normalised by their own sum lie in [0, 100] |
| ScoringProperties.WeightedScoresBounded | backend/app/ml/service.py:115-148 | with non-negative, course-keyed weights, every score lies in [0, 100] |
| ScoringProperties.EmptyInputScoresZero | backend/app/ml/service.py:117-125 | no responses means no normalisation, so all five scores are 0 |
| ScoringProperties.EqualScoresRecommendation | backend/app/ml/service.py:184-198 | five equal scores recommend TI (the first key) with the floor confidence 0.1 |
| ScoringProperties.RecommendationIsNotFallback | backend/app/ml/service.py:202-231 | a computed answer never equals the fallback answer |
| ScoringProperties.FallbackExactlyOnFailure | backend/app/ml/service.py:154-231 | the fallback is returned exactly when the weighted scores raise or the classifier raises |
| ScoringProperties.UnboostedScoresSumTo100 | backend/app/ml/service.py:156-198 | without a classifier, course-keyed responses with positive total weight get scores that add up to 100, each in [0, 100] for non-negative weights |
| ScoringProperties.BoostedScoresExceed100 | backend/app/ml/service.py:171-181 | with a classifier label, nothing is renormalised: the sum is 100 plus a fifth of the boosted course's score |
| ScoringProperties.DefaultWeightsCourseKeyed | backend/app/ml/service.py:129-135 | the default dictionary for a response without weights holds exactly the five course keys |
| ScoringProperties.NormaliseEqualScores | backend/app/ml/service.py:143-146 | five equal positive scores normalised by their sum are 20 each |
| ScoringProperties.EqualRawScoresNormalise | backend/app/ml/service.py:143-148 | five equal raw scores that make up the total normalise to 20 each |
| ScoringProperties.EqualRawScores | backend/app/ml/service.py:129-139 | every response without weights adds 5.0 to each course |
| ScoringProperties.UnweightedResponsesScoreEqually | backend/app/ml/service.py:127-148 | responses without weights never raise and score 20 for every course |
| ScoringProperties.ClassificationWithoutClassifier | backend/app/ml/service.py:156-159 | without a classifier, the weighted scores are reported unboosted |
| ScoringProperties.UnweightedResponsesTie | backend/app/ml/service.py:150-214 | without weights and without a classifier, the answer is TI at confidence 0.1 with all scores 20, which differs from the fallback only in confidence and time |
| Records.NewOption | backend/app/models/__init__.py:48-65 | a new option row carries its id and question id, and copies text, value, order and all five course weights from the data |
| Records.NewOptions | backend/app/api/v1/admin.py:162-174 | the new rows, one per entry, numbered consecutively under one question |
| Records.AddOptions | backend/app/api/v1/questionnaire.py:243-255 | adding options appends exactly the new rows and advances the id counter, keeps ids below the counter and leaves every other table alone |
| Records.FirstWithId | backend/app/api/v1/admin.py:134 | `.filter(X.id == id).first()` (used for questions, options and users) finds the first row with that id, and finds none exactly when no row has it |
| Records.Database.constructor | backend/app/models/__init__.py:17-107 | an empty database with every table empty and its id invariant holding |
| Questionnaire.ActiveOnly | backend/app/api/v1/questionnaire.py:24-26 | the filtered list holds active questions only |
| Questionnaire.ActiveOnlyMembers | backend/app/api/v1/questionnaire.py:24-26 | each active question occurs in the filtered list exactly as often as in the table, and an inactive one not at all |
| Questionnaire.InsertByOrder | backend/app/api/v1/questionnaire.py:26 | defines one insertion step of the ordering; `InsertByOrderElements`, `InsertByOrderSorted` and `InsertByOrderTies` prove it keeps the elements, keeps sortedness and puts the question ahead of its own order's group |
| Questionnaire.SortByOrder | backend/app/api/v1/questionnaire.py:26 | defines `order_by(Question.order)`; `SortByOrderSorted`, `SortByOrderElements` and `SortByOrderStable` prove it sorted, a permutation and stable |
| Questionnaire.ActiveQuestions | backend/app/api/v1/questionnaire.py:24-26 | defines the list `get_active_questions` returns; `ActiveQuestionsSpec` proves it sorted and exactly the active questions |
| Questionnaire.InsertByOrderElements | backend/app/api/v1/questionnaire.py:26 | inserting keeps every element and adds exactly one |
| Questionnaire.InsertByOrderSorted | backend/app/api/v1/questionnaire.py:26 | inserting into a list sorted by `order` keeps it sorted |
| Questionnaire.SortByOrderSorted | backend/app/api/v1/questionnaire.py:26 | `order_by(Question.order)` returns a list sorted by `order` |
| Questionnaire.SortByOrderElements | backend/app/api/v1/questionnaire.py:26 | sorting is a permutation |
| Questionnaire.InsertByOrderTies | backend/app/api/v1/questionnaire.py:26 | inserting a question puts it ahead of the questions of its own order and moves no other question of any order |
| Questionnaire.SortByOrderStable | backend/app/api/v1/questionnaire.py:26 | the sort is stable: the questions of any one order come out in table order |
| Questionnaire.ActiveQuestionsSpec | backend/app/api/v1/questionnaire.py:24-26 | the listed questions are sorted by `order` and are exactly the active questions, each as often as it is stored |
| Questionnaire.GetActiveQuestions | backend/app/api/v1/questionnaire.py:20-39 | returns the active questions in order; seeds only when there were none, and otherwise changes nothing |
| Questionnaire.TextCountPositive | backend/app/api/v1/questionnaire.py:230-232 | a text is counted exactly when some stored question has it |
| Questionnaire.SampleTextsDistinct | backend/app/api/v1/questionnaire.py:188-226 | the three sample texts differ |
| Questionnaire.SampleNamed | backend/app/api/v1/questionnaire.py:230-232 | the sample found for a text has that text, and none is found iff no sample has it |
| Questionnaire.SampleNamedAt | backend/app/api/v1/questionnaire.py:188-232 | since the sample texts differ, a sample's text finds that very sample |
| Questionnaire.SampleOptionDataAt | backend/app/api/v1/questionnaire.py:243-254 | the row of a sample is seeded with exactly that sample's option data |
| Questionnaire.SeedOptionsSnoc | backend/app/api/v1/questionnaire.py:234-255 | adding one more question row adds its sample's options after those already added, numbered on |
| Questionnaire.CreateSampleQuestions | backend/app/api/v1/questionnaire.py:186-257 | every sample text is stored afterwards. A sample whose text already exists adds nothing; each other sample adds its text once. Every added question row is the active row of the sample with its text: that sample's text, type, category and order, under a fresh id. The added option rows are exactly those samples' options (text, value, order, five weights) under the new question ids, in order and numbered on from the option counter. Old rows stay, ids stay below the counters, and nothing changes when all three texts were already stored |
| Questionnaire.SeedSample | backend/app/api/v1/questionnaire.py:228-255 | one turn either skips a sample whose text is stored and changes nothing, or appends its question row under the next question id and exactly its options under that id, numbered from the option counter |
| Questionnaire.SeedStep | backend/app/api/v1/questionnaire.py:228-255 | one turn keeps the seeding invariant for one more sample |
| Questionnaire.SeedAddStep | backend/app/api/v1/questionnaire.py:234-255 | adding a sample keeps the seeding invariant |
| Questionnaire.SeedAddTexts | backend/app/api/v1/questionnaire.py:234-241 | adding a sample stores its text and keeps every count as seeded |
| Questionnaire.SeedAddRows | backend/app/api/v1/questionnaire.py:234-255 | adding a sample appends its sample row and exactly its options |
| Questionnaire.SeedAddedRow | backend/app/api/v1/questionnaire.py:234-241 | the appended question row is the sample's row under a fresh id |
| Questionnaire.SeedAddedOptions | backend/app/api/v1/questionnaire.py:243-255 | appending one more added row's options, numbered on from the option counter, extends the seeded options by exactly that row's block |
| Questionnaire.SkippedSampleCount | backend/app/api/v1/questionnaire.py:230-232 | skipping a stored text leaves every text's count as seeded so far |
| Questionnaire.NewSampleCount | backend/app/api/v1/questionnaire.py:234-241 | adding an absent sample text raises its count from 0 to 1 and no other |
| Questionnaire.SeededTextsOnce | backend/app/api/v1/questionnaire.py:228-232 | after seeding, each sample text that was stored at most once is stored exactly once |
| Questionnaire.SeedingTwiceAddsNothing | backend/app/api/v1/questionnaire.py:228-232 | a second run of the seeding adds no question and no option |
| Questionnaire.OptionWeights | backend/app/api/v1/questionnaire.py:95-101 | the weight dictionary built from an option holds exactly the five course keys |
| Questionnaire.ScorerInput | backend/app/api/v1/questionnaire.py:86-103 | defines `responses_with_weights`, one weight dictionary per answer from its option; `ScorerInputCourseKeyed` proves every dictionary course-keyed and `BuildScorerInput` computes it |
| Questionnaire.ScorerInputCourseKeyed | backend/app/api/v1/questionnaire.py:86-103 | every dictionary a submission hands to the scorer is course-keyed, so the scorer does not raise |
| Questionnaire.SubmittedScoresSumTo100 | backend/app/api/v1/questionnaire.py:86-106 | without a classifier and with some weight, a submission's scores add up to 100 |
| Questionnaire.SubmissionFallbackOnlyFromClassifier | backend/app/api/v1/questionnaire.py:86-106 | a submission gets the fallback answer exactly when the classifier raises |
| Questionnaire.ResultRow | backend/app/api/v1/questionnaire.py:111-123 | the stored result copies the five scores, course, confidence and version from the classification, and takes the handler's time |
| Questionnaire.ResponseRow | backend/app/api/v1/questionnaire.py:74-80 | defines the stored row of one answer; `ResponseRows` states its fields |
| Questionnaire.ResponseRows | backend/app/api/v1/questionnaire.py:74-80 | one response row per answer, numbered in order; each carries the session id, the user id (none when anonymous), and its answer's question id, option id and response time |
| Questionnaire.StageResponses | backend/app/api/v1/questionnaire.py:55-80 | the validation loop fails exactly when some answer names an unknown question or option (the two are not checked to belong together); otherwise it builds every row |
| Questionnaire.BuildScorerInput | backend/app/api/v1/questionnaire.py:86-103 | the second loop builds exactly one weight dictionary per answer, from its option |
| Questionnaire.StoreResponses | backend/app/api/v1/questionnaire.py:81-83 | the staged rows are appended and the counter advanced, with ids kept below it |
| Questionnaire.StoreResult | backend/app/api/v1/questionnaire.py:125-126 | the result row is appended and the counter advanced |
| Questionnaire.SubmitQuestionnaire | backend/app/api/v1/questionnaire.py:44-136 | fails with 500 and stores nothing exactly when some answer names an unknown question or option. Otherwise it appends one response row per answer and one result row holding the classification of the option weights |
| Questionnaire.GetResult | backend/app/api/v1/questionnaire.py:138-151 | the first stored result of the session, or 404 exactly when the session has none |
| Admin.GetAdminUser | backend/app/api/v1/admin.py:19-26 | an administrator passes through unchanged; anyone else gets 403 |
| Admin.ApplyUpdate | backend/app/api/v1/admin.py:143-152 | the updated question keeps its id |
| Admin.ApplyUpdateFieldwise | backend/app/api/v1/admin.py:143-152 | a field changes only when the update gives a value, and each given field (text, type, category, order, active flag) then takes that value |
| Admin.EmptyUpdateKeepsQuestion | backend/app/api/v1/admin.py:143-152 | an update with no fields leaves the question as it was |
| Admin.ApplyUpdateIdempotent | backend/app/api/v1/admin.py:143-152 | applying the same update twice has the effect of applying it once |
| Admin.OptionsOf | backend/app/api/v1/admin.py:157-159 | the options selected by question id all belong to that question |
| Admin.WithoutOptionsOf | backend/app/api/v1/admin.py:157-159 | after the bulk delete, no option of that question remains |
| Admin.WithoutOptionsOfIdsBelow | backend/app/api/v1/admin.py:157-159 | deleting rows keeps the id invariant |
| Admin.OptionsOfAppend | backend/app/api/v1/admin.py:157-174 | a question's options in two tables placed one after the other are its options in each |
| Admin.WithoutOptionsOfKeepsOthers | backend/app/api/v1/admin.py:157-159 | the delete removes every option of that question and none of any other |
| Admin.NewOptionsAllOf | backend/app/api/v1/admin.py:162-174 | every new option belongs to the updated question |
| Admin.NewOptionsNoneOf | backend/app/api/v1/admin.py:162-174 | no new option belongs to another question |
| Admin.ReplacedOptions | backend/app/api/v1/admin.py:154-174 | defines the option table after a replacement: the question's old options deleted, the new rows appended; `ReplacedOptionsSpec` proves which options each question then has |
| Admin.ReplacedOptionsSpec | backend/app/api/v1/admin.py:154-174 | after replacement, the question has exactly the new options and every other question has exactly its old ones |
| Admin.UpdateQuestion | backend/app/api/v1/admin.py:126-178 | 403 for a non-admin and 404 for an unknown id, both changing nothing. The answer is `Ok` exactly when an admin names a stored question, and then the first question with the id gets the given fields. Its options are replaced only when options are given, and otherwise untouched |
| Admin.ResponseCount | backend/app/api/v1/admin.py:203-207 | defines the count of responses to the question; `ResponseCountPositive` proves it positive exactly when one exists |
| Admin.ResponseCountPositive | backend/app/api/v1/admin.py:203-207 | the response count is positive exactly when some stored response answers the question |
| Admin.DeleteQuestion | backend/app/api/v1/admin.py:187-216 | 403 or 404 change nothing. The answer is `Ok` exactly when an admin names a stored question. A question with responses is only deactivated (the count is reported) and keeps its options. Otherwise the question is removed with all its options |
| Admin.ToggledUsers | backend/app/api/v1/admin.py:322-329 | toggling is defined exactly when the user exists |
| Admin.ToggleChangesOnlyTarget | backend/app/api/v1/admin.py:329 | toggling flips the target's `is_active`, changes none of its other fields and no other user |
| Admin.ToggleTwiceRestores | backend/app/api/v1/admin.py:329 | toggling the same user twice restores the table |
| Admin.FirstWithIdSameIds | backend/app/api/v1/admin.py:322 | the lookup depends only on the ids, so toggling a user does not move it |
| Admin.ToggleUserStatus | backend/app/api/v1/admin.py:315-333 | 403 or 404 change nothing. The answer is `Ok` exactly when an admin names a stored user, and then the user table is toggled at that user and the updated user is returned |
| Admin.Passes | backend/app/api/v1/admin.py:238-243 | defines the filters: inclusive date bounds when given, the course only when given and non-empty; `FilteredMembers` proves the filtered results are exactly those that pass |
| Admin.Filtered | backend/app/api/v1/admin.py:235-245 | every kept result passes each given filter, and there are never more than the stored ones |
| Admin.FilteredMembers | backend/app/api/v1/admin.py:238-243 | a result is kept exactly when it passes each given filter (dates inclusive, course only when non-empty) |
| Admin.Increment | backend/app/api/v1/admin.py:264 | defines `dist[c] = dist.get(c, 0) + 1` on an insertion-ordered dictionary; `IncrementCount`, `IncrementKeys`, `IncrementDistinct` and `IncrementTotal` prove its effect |
| Admin.IncrementCount | backend/app/api/v1/admin.py:264 | `dist[c] = dist.get(c, 0) + 1` adds one to course `c`'s count and to no other |
| Admin.IncrementKeys | backend/app/api/v1/admin.py:264 | incrementing adds `c` as a key and no other key |
| Admin.IncrementDistinct | backend/app/api/v1/admin.py:264 | incrementing keeps the keys distinct |
| Admin.IncrementTotal | backend/app/api/v1/admin.py:264 | incrementing adds one to the sum of the counts |
| Admin.DistributionOf | backend/app/api/v1/admin.py:258-264 | defines `course_distribution` over the results in order; `DistributionSpec` proves its counts, keys and total |
| Admin.DistributionSpec | backend/app/api/v1/admin.py:258-264 | each course's count is the number of results recommending it; the keys are exactly the courses that occur, each once; the counts add up to the number of results |
| Admin.Summary | backend/app/api/v1/admin.py:276-284 | defines one entry of the `results` list (id, session, course, confidence, creation time); `AnalyticsOf` states the list |
| Admin.AnalyticsOf | backend/app/api/v1/admin.py:247-282 | the total is the number of results; an empty set gives total 0, an empty distribution and averages 0, with no `results` list. Otherwise the distribution is `DistributionOf` the results, each average times the count is the sum it averages, and the `results` list has one entry per result, in order, copying its id, session, course, confidence and creation time |
| Admin.Aggregate | backend/app/api/v1/admin.py:258-266 | the loop computes exactly the distribution, the confidence sum and the time sum |
| Admin.GetResponsesAnalytics | backend/app/api/v1/admin.py:225-282 | 403 for a non-admin; otherwise the analytics of exactly the filtered results |

## Left out

- Model training, loading and saving (`load_models`, `_initialize_default_models`, `save_models`, `retrain_model`, `get_model_info`): these are file and library calls. The classifier is an arbitrary optional function, and `predict_proba` (whose value is unused) is left out.
- Clocks: `datetime.now()`, `time.time()` and the database's `func.now()` become the parameters `elapsedMs` and `createdAt`.
- Float arithmetic: scores are exact reals, 1.2 is exactly 6/5, and the `round(..., 2)` of the analytics averages is not applied.
- Scoring.Classification: the `else 0.8` branch of the confidence is kept in the definition but is unreachable, since there are always five scores.
- Scoring.CalculateWeightedScores: the `25.0` branch for a `weights` value that is not a dictionary is not modelled. A weight dictionary is always a dictionary here, and other ways the loop can raise are reduced to a `None` value.
- Records: the `hashed_password`, `updated_at` and relationship attributes are not modelled. Option weights are non-null reals, as the request schema defaults them to 0.0.
- Database errors and transactions: only "an aborted handler changes nothing" is modelled. The `except` branches of `get_active_questions` that return `[]` after a database error have no counterpart, because the in-memory tables do not fail.
- Questionnaire.SubmitQuestionnaire: the 400 raised for an unknown question or option is caught by the handler's own `except Exception` and answered with 500. The model follows the code, not the documented 400.
- Questionnaire.SortByOrder: SQL leaves the order of equal `order` values unspecified. The model keeps table order among them (proved as `SortByOrderStable`). The properties sorted and a permutation hold for any tie order.
- Authentication (`get_current_user`, JWT, bcrypt) is not modelled: each admin handler receives the authenticated user, and only the role check is modelled.
- `create_question`, `update_user_role`, `get_all_questions`, `get_all_users`, `get_dashboard_stats`, `email_result` and `export_data` are not modelled. They are plain inserts, pagination and SQL aggregation, or stubs.
- The HTTP message texts (`{"message": ...}`) are not modelled. `DeleteQuestion` returns which branch was taken and the response count, and `ToggleUserStatus` returns the updated user.
