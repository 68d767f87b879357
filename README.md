# Adaptive assessment core of EduBuddy, in Dafny

EduBuddy is a tutoring server for rural Indian school students. This project models its
adaptive assessment core and proves properties of that model.

- **Question phase** (`getAdaptiveQuestions`). The server reads the learner's progress record
  for the subject. It takes the tier and the last round's score and areas from that record when
  the record has any history. It composes a question prompt from them and hands the prompt to
  the text-generation service.
- **Evaluation phase** (`evaluateAndAdapt`). The server tallies the submitted answers per topic.
  It classifies topics as strengths (at least 70%) or weaknesses (below 50%) and derives the next
  tier from the overall percentage (80% or more is advanced, 60% or more is intermediate). For a
  signed-in learner it appends a history entry to the record, merges the strengths, replaces the
  weaknesses, sets the tier and saves the record. It answers with a summary.
- **Text-generation service**. The service calls the hosted model when a key is configured. It
  strips markdown fences from the reply. When there is no key or the call fails, it returns
  canned mock data chosen by markers in the prompt.
- **Prompt builders**. These are the plain question prompt, the adaptive question prompt and the
  personalised plan prompt.
- **Course progress routes**. These get or create a learner's course record. Marking a lesson
  complete is idempotent, recomputes the completion percentage and updates the daily streak.

Files and modules:

| file | module | models |
|---|---|---|
| `text.dfy` | `Options`, `Text` | string containment, `join`, `\|\|` defaults, number rendering, `replace(/…/g, '')`, `trim` |
| `lists.dfy` | `Lists` | `[...new Set(xs)]` |
| `progress_schema.dfy` | `ProgressSchema` | the `Progress` document: enums, entries, defaults |
| `scoring.dfy` | `Scoring` | tallying, classification, tier, rounding and encouragement band of `evaluateAndAdapt` |
| `adaptive_assessment.dfy` | `AdaptiveAssessment` | the summary, the record update, the store class with `EvaluateAndAdapt` and `GetAdaptiveQuestions` |
| `questions_prompt.dfy` | `QuestionsPrompt` | `generateQuestionsPrompt` |
| `adaptive_questions_prompt.dfy` | `AdaptiveQuestionsPrompt` | `generateAdaptiveQuestionsPrompt` |
| `plan_prompt.dfy` | `PlanPrompt` | `generatePersonalizedPlanPrompt` |
| `ai_service.dfy` | `AIService` | `getMockData`, the reply cleanup, `generateAIResponse` |
| `mock_fallback.dfy` | `MockFallback` | what the fallback returns for the plain question prompt |
| `lesson_progress.dfy` | `LessonProgress` | the `/course/:courseId` and `/lesson/:lessonId/complete` handlers |
| `scenarios.dfy` | `Scenarios` | worked rounds computed through the model |

Modelling choices:

- **Percentages.** All percentages are cross-multiplications, for example `100 * correct >= 70 * total`.
- **No questions.** An empty question list gives NaN in the source. The model makes every
  comparison false in that case, and the rounded score is `None`.
- **`Math.round`.** It is modelled as `(200c + n) / (2n)`, which rounds halves up.
- **State.**
  - The progress collection is a class whose `map` field the methods reassign. The map holds one
    record per learner and subject.
  - The course progress collection is a class keyed by learner and course.
  - Records are datatypes.
- **Parameters.** The clock, the configured API key, the hosted model (a function from prompt to
  reply) and the course's lesson count are all parameters.

Where the code and its evident intent differ, the model follows the code:

- **Missing answers.** Intended: a missing answer is never correct. The code compares with
  `===`, so a question with no `correctAnswer` counts as correct when its answer is missing too.
  `Scoring.IsCorrect` models the code.
- **Malformed replies.** Intended: a malformed model reply falls back to the built-in questions
  after a best-effort extraction. The code has no extraction. It passes any reply to
  `JSON.parse`, and a parse failure ends the request with status 500. A fallback happens only
  when there is no key or the call throws. `AIService.GenerateAIResponse` models the code.
- **Adaptive questions without the model.** Intended: with no key, or after a failed call, the
  question phase serves a built-in question set. The adaptive prompt's header reads "Generate 5
  adaptive multiple-choice questions", which does not contain the fallback's marker, so the
  fallback answers `{}` and the learner receives no questions
  (server/controllers/adaptiveAssessmentController.js:28-29). `MockFallback.HeaderLeadHasNoMarker`
  proves the header's fixed words avoid the marker.
- **Fresh records.** Intended: a fresh record has no tier set. The schema defaults the tier to
  `beginner`, and the model follows the schema.

## Model

| member | source | states |
|---|---|---|
| ProgressSchema.ParseSubject | server/models/Progress.js:9-13 | a subject is accepted exactly when it is Math, English or Both, and then it is the subject of that name |
| ProgressSchema.SubjectNameRoundTrip | server/models/Progress.js:9-13 | every subject's name is accepted as that same subject |
| ProgressSchema.ParseTier | server/models/Progress.js:26-30 | a difficulty is accepted exactly when it is beginner, intermediate or advanced, and then it is the tier of that name |
| ProgressSchema.TierNameRoundTrip | server/models/Progress.js:26-30 | every tier's name is accepted as that same tier |
| ProgressSchema.NewRecord | server/models/Progress.js:3-50 | a new record keeps the given user, subject and topic; its lists are empty, its tier is beginner, its time spent is 0 and its last activity is now |
| ProgressSchema.NewScoreEntry | server/models/Progress.js:18-23 | a history entry created without a date is dated now and keeps its score, total and difficulty |
| ProgressSchema.NewDailyChallenge | server/models/Progress.js:31-36 | a daily challenge starts as not completed |
| ProgressSchema.NewPlanTopic | server/models/Progress.js:41-46 | a weekly-plan topic starts as not completed |
| Scoring.CountCorrect | server/controllers/adaptiveAssessmentController.js:51-53 | the number of correct answers never exceeds the number of questions |
| Scoring.TopicCorrect | server/controllers/adaptiveAssessmentController.js:55-59 | a topic never has more correct answers than questions |
| Scoring.TopicCountPositive | server/controllers/adaptiveAssessmentController.js:55-58 | a topic has at least one question exactly when some question carries it |
| Scoring.IndexOf | server/controllers/adaptiveAssessmentController.js:55 | gives the first position of a topic in the table, or -1 exactly when the topic is absent |
| Scoring.IndexOfFound | server/controllers/adaptiveAssessmentController.js:55 | a topic is found exactly when it is one of the table's topics |
| Scoring.IndexOfSameTopics | server/controllers/adaptiveAssessmentController.js:55-59 | updating tallies never moves a topic |
| Scoring.RecordTopics | server/controllers/adaptiveAssessmentController.js:55-57 | a new topic joins at the end; a known topic leaves the topic order unchanged |
| Scoring.RecordLookup | server/controllers/adaptiveAssessmentController.js:58-59 | recording a question adds one to its topic's total, and one to its correct count exactly when it was answered correctly; every other topic is unchanged |
| Scoring.TallyTopics | server/controllers/adaptiveAssessmentController.js:51-60 | the table lists the questions' topics once each, in order of first appearance |
| Scoring.TallyLookup | server/controllers/adaptiveAssessmentController.js:51-60 | each topic's tally is its number of questions and its number of correctly answered questions |
| Scoring.TallyBounded | server/controllers/adaptiveAssessmentController.js:51-60 | every entry has at least one question and no more correct answers than questions, and no topic appears twice |
| Scoring.TallySums | server/controllers/adaptiveAssessmentController.js:51-60 | the totals add up to the number of questions and the correct counts add up to the overall correct count |
| Scoring.RecordQuestion | server/controllers/adaptiveAssessmentController.js:55-59 | the in-place update of one topic's entry gives the fold step: a new topic is appended, its total grows by one and its correct count by one exactly when the answer was right |
| Scoring.TallyQuestions | server/controllers/adaptiveAssessmentController.js:48-60 | the loop yields exactly the reference correct count and the reference topic table |
| Scoring.TopicsWhereFacts | server/controllers/adaptiveAssessmentController.js:66-73 | a topic is selected exactly when one of its entries passes the test, and a duplicate-free table gives a duplicate-free selection |
| Scoring.TopicsWhereLookup | server/controllers/adaptiveAssessmentController.js:66-73 | in a duplicate-free table, a topic is selected exactly when it is listed and its tally passes the test |
| Scoring.RoundClassification | server/controllers/adaptiveAssessmentController.js:66-73 | a topic is a strength exactly when it was asked and at least 70% of it was correct, and a weakness exactly when it was asked and under 50% was correct; no topic is both, and each list names a topic once |
| Scoring.ClassifiedTopicsWereAsked | server/controllers/adaptiveAssessmentController.js:66-73 | strengths and weaknesses are topics of the submitted questions |
| Scoring.ClassifyTopics | server/controllers/adaptiveAssessmentController.js:62-73 | the loop yields exactly the reference strengths and weaknesses, in table order |
| Scoring.NextTier | server/controllers/adaptiveAssessmentController.js:76-79 | advanced exactly at 80% or more, intermediate exactly from 60% to under 80%, beginner otherwise, including with no questions |
| Scoring.NextTierMonotone | server/controllers/adaptiveAssessmentController.js:76-79 | more correct answers out of the same total never give a lower tier, and no questions give beginner |
| Scoring.RoundedScore | server/controllers/adaptiveAssessmentController.js:103 | no score exactly when there are no questions; otherwise the nearest whole percentage, rounding halves up, between 0 and 100 |
| Scoring.BandOf | server/controllers/adaptiveAssessmentController.js:110-119 | the top band at 70% or more, the middle band from 50% to under 70%, the lowest band otherwise |
| Scoring.EncouragementDistinct | server/controllers/adaptiveAssessmentController.js:110-114 | the three bands get three different messages |
| AdaptiveAssessment.SummaryMeaning | server/controllers/adaptiveAssessmentController.js:102-119 | the summary reports the raw correct count, the number of questions, the rounded score between 0 and 100, the tier from the whole round and the encouragement from the unrounded percentage |
| AdaptiveAssessment.SummaryTopics | server/controllers/adaptiveAssessmentController.js:102-109 | the breakdown lists each asked topic once with its own tally, and the strengths and weaknesses are this round's alone |
| AdaptiveAssessment.DifficultyText | server/controllers/adaptiveAssessmentController.js:91 | the first question's difficulty when it is present and non-empty, `beginner` otherwise |
| AdaptiveAssessment.Apply | server/controllers/adaptiveAssessmentController.js:88-97 | appends exactly the given entry; the strengths become the duplicate-free union with the old ones kept at the front; weaknesses, tier and last activity are replaced; nothing else changes |
| AdaptiveAssessment.UpdateRules | server/controllers/adaptiveAssessmentController.js:88-97 | a round appends one entry with the raw count, the number of questions and the difficulty; it keeps old strengths and adds the round's; it sets the weaknesses and the tier from this round alone; the other fields are unchanged |
| AdaptiveAssessment.TwoRounds | server/controllers/adaptiveAssessmentController.js:88-97 | after two rounds the weaknesses are the second round's, the history grows by two behind the old entries, and strengths from either round or from before are all kept |
| AdaptiveAssessment.LastPerformance | server/controllers/adaptiveAssessmentController.js:14-23 | a previous performance exists exactly when the record has history; it carries the last entry's score and total, the record's areas and the record's tier |
| AdaptiveAssessment.NextRoundAdapts | server/controllers/adaptiveAssessmentController.js:88-97 | the next question round reads back what an evaluated round stored: its count, its number of questions, its weaknesses, the merged strengths and its tier |
| AdaptiveAssessment.ProgressStore.Find | server/controllers/adaptiveAssessmentController.js:83 | a record is found exactly when the subject is a valid subject and a record exists for that learner and subject |
| AdaptiveAssessment.ProgressStore.Base | server/controllers/adaptiveAssessmentController.js:83-86 | the stored record, or a fresh one whose topic is the subject's name |
| AdaptiveAssessment.ProgressStore.EvaluateAndAdapt | server/controllers/adaptiveAssessmentController.js:43-127 | with no learner, nothing is stored and the summary is returned; with a valid subject and difficulty, exactly that learner's record is replaced by the updated one; otherwise the save is refused, nothing is stored and the failing checks are reported; the store stays consistent |
| AdaptiveAssessment.ProgressStore.GetAdaptiveQuestions | server/controllers/adaptiveAssessmentController.js:5-41 | previous performance is used exactly when the learner has a record with history; it sets the tier (otherwise beginner) and the `adaptedFrom` label; the prompt and the service call get that tier and that performance; the store is only read |
| Scenarios.ClassifierBoundaries | server/controllers/adaptiveAssessmentController.js:66-73 | 7/10 is a strength, 5/10 is not a weakness, 4/10 is a weakness, 6/10 is neither |
| Scenarios.OneTopic | server/controllers/adaptiveAssessmentController.js:51-60 | questions on a single topic leave a one-entry table with their correct count and their number |
| Scenarios.TwoTopics | server/controllers/adaptiveAssessmentController.js:51-60 | a block on one topic followed by a block on another leaves one entry per block, in that order, and the counts add up |
| Scenarios.OneTopicRound | server/controllers/adaptiveAssessmentController.js:43-127 | five questions on one topic with four right give 80, a 4/5 breakdown, that topic as the strength, no weakness and the advanced tier |
| Scenarios.TwoTopicTally | server/controllers/adaptiveAssessmentController.js:51-60 | three questions on one topic with one right and two on another both right give the tallies 1/3 and 2/2 and 3 correct |
| Scenarios.TwoTopicRound | server/controllers/adaptiveAssessmentController.js:43-127 | tallies of 1/3 and 2/2 give 60, the second topic as the strength, the first as the weakness and the intermediate tier |
| Scenarios.EmptyRound | server/controllers/adaptiveAssessmentController.js:76-91 | no questions give no score, the beginner tier, the lowest band and a `beginner` entry difficulty |
| Lists.DedupFacts | server/controllers/adaptiveAssessmentController.js:94 | deduplication keeps exactly the given elements, each once |
| Lists.DedupOfDistinct | server/controllers/adaptiveAssessmentController.js:94 | a duplicate-free list is its own deduplication |
| Lists.DedupPrefix | server/controllers/adaptiveAssessmentController.js:94 | deduplicating a longer list only adds at the end |
| Lists.DedupUnion | server/controllers/adaptiveAssessmentController.js:94 | the deduplicated union holds every element of either list once and keeps a duplicate-free first list at its front |
| QuestionsPrompt.SubjectText | server/utils/prompts/generateQuestionsPrompt.js:2-5 | Both is spelled out starting with "Mathematics and English"; any other subject is used as given |
| QuestionsPrompt.PromptShape | server/utils/prompts/generateQuestionsPrompt.js:7 | the prompt opens with "Generate 5 multiple-choice questions" and contains the request sentence, which names the grade and the subject text |
| QuestionsPrompt.BothPromptNamesMixedSubject | server/utils/prompts/generateQuestionsPrompt.js:3-7 | asking for Both puts "Mathematics and English" into the prompt |
| QuestionsPrompt.SchemaFieldsNameEveryKey | server/utils/prompts/generateQuestionsPrompt.js:11-16 | every key of the example object appears quoted in the rendered fields |
| QuestionsPrompt.PromptNamesQuestionFields | server/utils/prompts/generateQuestionsPrompt.js:9-17 | the prompt's example names `id`, `question`, `options` and `correctAnswer` |
| AdaptiveQuestionsPrompt.MathTopics | server/utils/prompts/generateAdaptiveQuestionsPrompt.js:8-12 | 3, 4 and 5 non-empty math topics for beginner, intermediate and advanced |
| AdaptiveQuestionsPrompt.EnglishTopics | server/utils/prompts/generateAdaptiveQuestionsPrompt.js:14-18 | 3 non-empty English topics per tier |
| AdaptiveQuestionsPrompt.TierOrDefault | server/utils/prompts/generateAdaptiveQuestionsPrompt.js:1 | the tier defaults to beginner when none is given |
| AdaptiveQuestionsPrompt.HistoryOnlyInsertsAnalysis | server/utils/prompts/generateAdaptiveQuestionsPrompt.js:27-45 | a history changes the prompt only by inserting the analysis block at one fixed position of the first-time prompt |
| AdaptiveQuestionsPrompt.AnalysisReportsScore | server/utils/prompts/generateAdaptiveQuestionsPrompt.js:31 | the analysis shows the score as `score/total` |
| AdaptiveQuestionsPrompt.AnalysisReportsFocus | server/utils/prompts/generateAdaptiveQuestionsPrompt.js:35 | the analysis tells the model to focus on the weak areas |
| AdaptiveQuestionsPrompt.AnalysisReportsWeakArea | server/utils/prompts/generateAdaptiveQuestionsPrompt.js:32 | every weak area appears in the analysis |
| AdaptiveQuestionsPrompt.AnalysisReportsStrongArea | server/utils/prompts/generateAdaptiveQuestionsPrompt.js:33 | every strong area appears in the analysis |
| AdaptiveQuestionsPrompt.AnalysisReportsNoWeakAreas | server/utils/prompts/generateAdaptiveQuestionsPrompt.js:32 | a missing or empty weak-area list renders "None identified" |
| AdaptiveQuestionsPrompt.AnalysisBlockReports | server/utils/prompts/generateAdaptiveQuestionsPrompt.js:29-36 | the analysis reports the score, every weak and strong area, the focus instruction, and "None identified" for no weak areas |
| AdaptiveQuestionsPrompt.PromptCarriesAnalysis | server/utils/prompts/generateAdaptiveQuestionsPrompt.js:45 | a learner with history gets the analysis block in the prompt |
| AdaptiveQuestionsPrompt.HeaderNamesSubjectAndTier | server/utils/prompts/generateAdaptiveQuestionsPrompt.js:41 | the request sentence names the subject text and the tier |
| AdaptiveQuestionsPrompt.PromptCarriesHeader | server/utils/prompts/generateAdaptiveQuestionsPrompt.js:41 | the request sentence is in the prompt, whatever the history |
| AdaptiveQuestionsPrompt.PromptCarriesDifficulty | server/utils/prompts/generateAdaptiveQuestionsPrompt.js:63 | the example object's `difficulty` field carries the requested tier |
| AdaptiveQuestionsPrompt.PromptNamesSubjectAndTier | server/utils/prompts/generateAdaptiveQuestionsPrompt.js:39-63 | the prompt asks for the subject at the tier and echoes the tier in the `difficulty` field |
| AdaptiveQuestionsPrompt.PromptCarriesTopicSections | server/utils/prompts/generateAdaptiveQuestionsPrompt.js:47-51 | the topic sections are in the prompt, whatever the history |
| AdaptiveQuestionsPrompt.MathListCoversTopics | server/utils/prompts/generateAdaptiveQuestionsPrompt.js:47-48 | a math topic of the tier is listed exactly when the subject is Math or Both |
| AdaptiveQuestionsPrompt.EnglishListCoversTopics | server/utils/prompts/generateAdaptiveQuestionsPrompt.js:50-51 | an English topic of the tier is listed exactly when the subject is English or Both |
| AdaptiveQuestionsPrompt.SectionsCoverCurricula | server/utils/prompts/generateAdaptiveQuestionsPrompt.js:47-51 | the topic sections hold every math topic of the tier when Math or Both is asked, and every English topic when English or Both is asked |
| AdaptiveQuestionsPrompt.PromptCoversMath | server/utils/prompts/generateAdaptiveQuestionsPrompt.js:47-48 | for Math or Both, every math topic of the tier reaches the prompt, whatever the history |
| AdaptiveQuestionsPrompt.PromptCoversEnglish | server/utils/prompts/generateAdaptiveQuestionsPrompt.js:50-51 | for English or Both, every English topic of the tier reaches the prompt, whatever the history |
| PlanPrompt.NumberText | server/utils/prompts/generatePersonalizedPlanPrompt.js:6 | a missing count renders "undefined"; a present one renders as digits that read back as the number |
| PlanPrompt.LevelText | server/utils/prompts/generatePersonalizedPlanPrompt.js:9 | the level text is never empty |
| PlanPrompt.PromptNamesLearner | server/utils/prompts/generatePersonalizedPlanPrompt.js:2 | the opening line names the learner and the grade |
| PlanPrompt.PromptNamesSubjectAndScore | server/utils/prompts/generatePersonalizedPlanPrompt.js:4-6 | the results name the subject and the score `correct/total` |
| PlanPrompt.PromptListsStrength | server/utils/prompts/generatePersonalizedPlanPrompt.js:7 | every strength appears in the prompt |
| PlanPrompt.PromptListsWeakness | server/utils/prompts/generatePersonalizedPlanPrompt.js:8 | every weakness appears in the prompt |
| PlanPrompt.PromptListsAreas | server/utils/prompts/generatePersonalizedPlanPrompt.js:7-8 | all strengths and all weaknesses appear in the prompt |
| PlanPrompt.PromptDefaultsStrengths | server/utils/prompts/generatePersonalizedPlanPrompt.js:7 | missing or empty strengths render "To be identified" |
| PlanPrompt.PromptDefaultsWeaknesses | server/utils/prompts/generatePersonalizedPlanPrompt.js:8 | missing or empty weaknesses render "To be identified" |
| PlanPrompt.PromptNamesLevel | server/utils/prompts/generatePersonalizedPlanPrompt.js:9 | the level line shows the given level, or "Beginner" when it is missing or empty |
| AIService.MockForKinds | server/services/openaiService.js:39-79 | questions exactly when the question marker is present; otherwise the evaluation, then the plan, then `{}` by the markers, first match wins |
| AIService.MockDataConsistent | server/services/openaiService.js:42-77 | each question set has five questions numbered 1 to 5, each answer among four options; the mock evaluation's 80 is 4 of 5; the mock plan is Monday to Wednesday |
| AIService.EnhancedPromptKeepsPrompt | server/services/openaiService.js:20 | the model is sent the prompt unchanged with the JSON instruction after it |
| AIService.CleanLeavesNoFence | server/services/openaiService.js:27 | a cleaned reply holds no fence and begins and ends with a character `trim` keeps |
| AIService.CleanIdempotent | server/services/openaiService.js:27 | cleaning a cleaned reply changes nothing |
| AIService.NoKeyNeverCallsModel | server/services/openaiService.js:8-11 | without a key the mock for the prompt is returned, whatever the model would do |
| AIService.WithKeyUsesModelReply | server/services/openaiService.js:14-35 | with a key only the model's reply to the enhanced prompt matters; a failed call gives the mock, and a reply comes back cleaned |
| AIService.ResponseIsMockOrClean | server/services/openaiService.js:6-36 | every response is either the mock for this prompt or cleaned, fence-free, trimmed text |
| MockFallback.HeaderLeadHasNoMarker | server/utils/prompts/generateAdaptiveQuestionsPrompt.js:41 | the adaptive header's fixed words do not contain the fallback's question marker (server/services/openaiService.js:40), at any position |
| MockFallback.MarkersMatchPrompt | server/services/openaiService.js:40-41 | the plain question prompt's opening words and its spelled-out Both are exactly the two markers the fallback tests |
| MockFallback.MarkedPromptGetsQuestions | server/services/openaiService.js:40-56 | any prompt with the question marker falls back to a well-formed question set, the mixed one when it also has the mixed marker |
| MockFallback.QuestionsPromptFallsBackToQuestions | server/services/openaiService.js:40-56 | the plain question prompt always falls back to a well-formed question set |
| MockFallback.BothPromptFallsBackToMixed | server/services/openaiService.js:41-48 | the plain question prompt for Both falls back to the mixed set |
| MockFallback.QuestionsRequestAlwaysAnswered | server/services/openaiService.js:8-35 | without a key or after a failed call, a plain question request still receives five well-formed questions |
| Text.RemoveFenceLeavesNoFence | server/services/openaiService.js:27 | removing every fence leaves no fence behind |
| Text.RemoveAllAbsent | server/services/openaiService.js:27 | removing a pattern that does not occur changes nothing |
| Text.Trim | server/services/openaiService.js:27 | the result is empty or begins and ends with a non-whitespace character |
| Text.TrimCutsOnlyTrimmable | server/services/openaiService.js:27 | trimming removes only whitespace, at the two ends |
| Text.TrimEmptyIff | server/services/openaiService.js:27 | the result is empty exactly when the text is all whitespace |
| Text.TrimOfTrimmed | server/services/openaiService.js:27 | trimming a trimmed text changes nothing |
| Text.IntToStringRoundTrip | server/utils/prompts/generateAdaptiveQuestionsPrompt.js:31 | a rendered integer reads back as itself |
| Text.JoinOr | server/utils/prompts/generateAdaptiveQuestionsPrompt.js:32-33 | a missing list gives the default; a present list gives its join when that join is non-empty and the default when it is empty (an empty list, or only empty elements); a list with a non-empty element gives its join |
| Text.JoinOrContainsPart | server/utils/prompts/generateAdaptiveQuestionsPrompt.js:32-33 | each element of a present list occurs in its joined-or-defaulted rendering, whichever default is used (the same holds for the plan prompt's lists at server/utils/prompts/generatePersonalizedPlanPrompt.js:7-8) |
| Text.JoinEmptyIff | server/utils/prompts/generateAdaptiveQuestionsPrompt.js:32-33 | a join is empty exactly when the list is empty or is one empty string |
| LessonProgress.YesterdayIsPreviousDay | server/routes/progress.js:68 | the day 86400000 ms before now is the previous calendar day |
| LessonProgress.Fresh | server/routes/progress.js:17-20 | a new course record has no completions, no ratio, no streak and no access time |
| LessonProgress.Percentage | server/routes/progress.js:62 | the ratio times the lesson count is 100 times the completions; between 0 and 100 when completions do not exceed lessons; infinite for a course with no lessons |
| LessonProgress.NextStreak | server/routes/progress.js:64-74 | unchanged on the same day, one more on the next day, 1 otherwise or with no earlier access |
| LessonProgress.CompletedRules | server/routes/progress.js:49-76 | an already completed lesson changes nothing; otherwise exactly that lesson and score are appended, the ratio is recomputed, the streak follows the rule and the access time becomes now |
| LessonProgress.CompleteIdempotent | server/routes/progress.js:50-54 | completing a lesson twice equals completing it once |
| LessonProgress.FreshWellFormed | server/routes/progress.js:17-20 | a new course record is well formed |
| LessonProgress.CompletedWellFormed | server/routes/progress.js:50-75 | completion keeps every lesson once, an access time exactly when something was completed, and a streak from 1 up to the number of completions |
| LessonProgress.StreakOverDays | server/routes/progress.js:64-74 | two completions on the same day keep the streak, on consecutive days add one, and with a gap reset it to 1 |
| LessonProgress.AlreadyCompleted | server/routes/progress.js:50-52 | the search answers exactly whether some completion has the lesson's id |
| LessonProgress.CourseProgressStore.GetCourseProgress | server/routes/progress.js:10-22 | returns the stored record unchanged, or creates, stores and returns a fresh one |
| LessonProgress.CourseProgressStore.CompleteLesson | server/routes/progress.js:32-84 | the stored or fresh record is updated by the completion rule and saved under its learner and course; the store stays consistent |

## Left out

- `JSON.parse` and `JSON.stringify` are left out. Mock data is returned as a value, not as JSON text. The questions of `getAdaptiveQuestions` are the service's response as it stands. A reply that does not parse makes the source fail with status 500, which is not modelled.
- Floating point is left out. Percentages are exact. `Math.round` of a float can differ from exact rounding at exact halves (23 of 40 is 57.5 exactly, but the float product is just below it), and the lesson ratio is an exact real.
- Dates are left out. One `now` stands for every clock read in a request. A calendar day is a UTC day number, whereas `toDateString` uses the local zone.
- The adaptive prompt's fallback is proved only for the header's fixed words (`MockFallback.HeaderLeadHasNoMarker`). That the whole prompt gets `{}` is not proved, because the grade, subject and area names are free text that could hold the marker.
- The plan prompt's fallback is not proved. It never contains "Create a weekly learning plan" and so gets `{}`. No lemma proves this, because the name, grade, subject and areas are free text.
- MockFallback.BothPromptFallsBackToMixed: only the Both direction is proved. A subject other than Both gets the general set only if the grade and subject text avoid "Mathematics and English", which the source does not check.
- The ids of the learner, course and lesson are strings. The database's ObjectId casts, and the errors they raise, are left out.
- `Progress.findOne` keys records by learner and subject, so a map holds at most one record per pair. Duplicate documents are not modelled, and neither is the `.sort` on the question-phase query.
- The model call itself (the SDK, the network) is left out. So are concurrent requests racing on one record, and `populate`.
- Topic order follows first appearance. `Object.entries` puts integer-like keys first, which is not modelled.
- Scoring.TallyOf, Scoring.Record and the lemmas built on the tally (Scoring.TallyTopics, Scoring.TallyLookup, Scoring.TallyBounded, Scoring.TallySums, AdaptiveAssessment.SummaryTopics and the strengths merged by AdaptiveAssessment.Apply) treat every topic as an ordinary key. In the source the tally is a plain object literal, so a topic named after an inherited property (`constructor`, `toString`, `valueOf`, `hasOwnProperty`, `__proto__`) finds the inherited value, gets no own entry, and is left out of `Object.entries`: it is never a strength or a weakness. Such topic names are not modelled.
- Scoring.AnswerFor: answers are a map from integer question ids to strings. In the source they are a JSON object with string keys and arbitrary values, so string ids such as `q1`, a question without an id (looked up as `undefined`) and non-string answers (the number 4 is not `===` to the string "4") are not represented.
- A missing `userAnswers` field makes the source throw a TypeError and answer with status 500. This is not modelled: answers are always a map.
- A tier outside beginner, intermediate and advanced has no topic list in the source. The `Tier` type excludes such tiers.
- A missing `questions` field makes the source throw a TypeError and answer with status 500. This is not modelled: questions are a sequence.
- AdaptiveAssessment.ProgressStore.EvaluateAndAdapt checks only the subject and difficulty enums. These are the only schema checks a round can fail, since the learner id is always present and the topic is the subject.
- The lesson routes' fields are not in the schema. `courseId`, `completedLessons`, `overallProgress`, `studyStreak` and `lastAccessed` do not exist in `server/models/Progress.js`, where `subject` and `topic` are required. So the routes are modelled over their own record, `LessonProgress.CourseProgress`. It treats the fields as the handler uses them and treats an absent streak as 0: an absent streak is only read when there is no access time, and the handler then resets it to 1.
- The lesson count comes from another collection (`Lesson.countDocuments`), so it is a parameter.
