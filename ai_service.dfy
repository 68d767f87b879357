/** The text-generation service: a call to the hosted model when a key is configured, with the
    model's reply cleaned of markdown fences, and canned mock data whenever there is no key or
    the call fails. */
module AIService {
  import opened Options
  import opened Text

  // ---------------------------------------------------------------------------
  // Mock data, chosen by what the prompt contains

  const QuestionMarker := "Generate 5 multiple-choice questions"
  const MixedMarker := "Mathematics and English"
  const EvaluationMarker := "Evaluate the following student answers"
  const PlanMarker := "Create a weekly learning plan"

  datatype MockQuestion = MockQuestion(id: int, question: string, options: seq<string>, correctAnswer: string)

  datatype MockEvaluation = MockEvaluation(
    score: int,
    totalQuestions: int,
    correctAnswers: int,
    analysis: string,
    strengths: seq<string>,
    weaknesses: seq<string>,
    recommendations: seq<string>)

  datatype MockDay = MockDay(day: string, topic: string, activities: seq<string>, resources: seq<string>)

  datatype MockPlan = MockPlan(weekTitle: string, days: seq<MockDay>)

  /** The value whose JSON text the mock returns; `EmptyObject` is `{}`. */
  datatype MockData =
    | QuestionSet(questions: seq<MockQuestion>)
    | Evaluation(evaluation: MockEvaluation)
    | Plan(plan: MockPlan)
    | EmptyObject

  const MixedQuestions: seq<MockQuestion> := [
    MockQuestion(1, "What is 5 + 3?", ["6", "7", "8", "9"], "8"),
    MockQuestion(2, "Which word is a noun?", ["Run", "Blue", "Cat", "Quickly"], "Cat"),
    MockQuestion(3, "What is 10 - 4?", ["5", "6", "7", "8"], "6"),
    MockQuestion(4, "Choose the correct spelling:", ["Happyness", "Happiness", "Hapiness", "Happines"], "Happiness"),
    MockQuestion(5, "How many sides does a square have?", ["2", "3", "4", "5"], "4")
  ]

  const GeneralQuestions: seq<MockQuestion> := [
    MockQuestion(1, "What is 2 + 2?", ["3", "4", "5", "6"], "4"),
    MockQuestion(2, "What is the capital of France?", ["London", "Berlin", "Paris", "Madrid"], "Paris"),
    MockQuestion(3, "Which planet is known as the Red Planet?", ["Venus", "Mars", "Jupiter", "Saturn"], "Mars"),
    MockQuestion(4, "What is the past tense of 'run'?", ["Runned", "Ran", "Running", "Runs"], "Ran"),
    MockQuestion(5, "How many sides does a triangle have?", ["2", "3", "4", "5"], "3")
  ]

  const MockEvaluationResult := MockEvaluation(
    80, 5, 4, "Good understanding of basic concepts (Mock Evaluation).",
    ["Arithmetic", "Geography"], ["Grammar"], ["Review past tense verbs."])

  const MockWeekPlan := MockPlan("Foundations Week (Mock Plan)", [
    MockDay("Monday", "Basic Math", ["Practice addition", "Watch video on subtraction"], ["MathIsFun.com"]),
    MockDay("Tuesday", "Geography", ["Map reading", "Capital cities quiz"], ["NatGeo Kids"]),
    MockDay("Wednesday", "Grammar", ["Verb tenses worksheet", "Reading practice"], ["GrammarMonster"])
  ])

  /** `getMockData(prompt)`: the markers are checked in a fixed order and the first match wins. */
  function MockFor(prompt: string): MockData
  {
    if Contains(prompt, QuestionMarker) then
      if Contains(prompt, MixedMarker) then QuestionSet(MixedQuestions) else QuestionSet(GeneralQuestions)
    else if Contains(prompt, EvaluationMarker) then Evaluation(MockEvaluationResult)
    else if Contains(prompt, PlanMarker) then Plan(MockWeekPlan)
    else EmptyObject
  }

  /** Five questions numbered 1 to 5, each with four options among which its answer is found. */
  predicate WellFormedQuestionSet(qs: seq<MockQuestion>)
  {
    |qs| == 5
    && forall k :: 0 <= k < |qs| ==>
         qs[k].id == k + 1 && |qs[k].options| == 4 && qs[k].correctAnswer in qs[k].options
  }

  /** Which kind of mock a prompt gets, by the markers it contains. */
  lemma MockForKinds(prompt: string)
    ensures MockFor(prompt).QuestionSet? <==> Contains(prompt, QuestionMarker)
    ensures MockFor(prompt).Evaluation? <==> !Contains(prompt, QuestionMarker) && Contains(prompt, EvaluationMarker)
    ensures MockFor(prompt).Plan? <==>
              !Contains(prompt, QuestionMarker) && !Contains(prompt, EvaluationMarker) && Contains(prompt, PlanMarker)
    ensures MockFor(prompt).EmptyObject? <==>
              !Contains(prompt, QuestionMarker) && !Contains(prompt, EvaluationMarker) && !Contains(prompt, PlanMarker)
  {
  }

  /** Every mock the service can return is internally consistent: question sets are well formed
      (so a learner who picks each listed answer scores full marks), the mock evaluation's
      percentage agrees with its counts, and the mock plan covers Monday to Wednesday in order. */
  lemma MockDataConsistent(prompt: string)
    ensures MockFor(prompt).QuestionSet? ==> WellFormedQuestionSet(MockFor(prompt).questions)
    ensures MockFor(prompt).Evaluation? ==>
              var e := MockFor(prompt).evaluation;
              0 <= e.correctAnswers <= e.totalQuestions && e.score * e.totalQuestions == 100 * e.correctAnswers
    ensures MockFor(prompt).Plan? ==>
              var d := MockFor(prompt).plan.days;
              |d| == 3 && d[0].day == "Monday" && d[1].day == "Tuesday" && d[2].day == "Wednesday"
  {
    assert WellFormedQuestionSet(MixedQuestions);
    assert WellFormedQuestionSet(GeneralQuestions);
  }

  // ---------------------------------------------------------------------------
  // Cleaning the model's reply

  const JsonFence := "```json"

  /** The instruction appended to every prompt sent to the hosted model. */
  const JsonInstruction := " \n\n IMPORTANT: Output ONLY valid JSON. Do not include markdown formatting like ```json."

  function EnhancedPrompt(prompt: string): string
  {
    prompt + JsonInstruction
  }

  /** The model sees everything the prompt says, in the same place. */
  lemma EnhancedPromptKeepsPrompt(prompt: string, x: string)
    requires Contains(prompt, x)
    ensures Contains(EnhancedPrompt(prompt), x) && prompt <= EnhancedPrompt(prompt)
  {
    ContainsLeft(prompt, JsonInstruction, x);
  }

  /** `text.replace(/```json/g, '').replace(/```/g, '').trim()` */
  function Clean(text: string): string
  {
    Trim(RemoveAll(RemoveAll(text, JsonFence), Fence))
  }

  /** A cleaned reply holds no fence and starts and ends with a character `trim` keeps. */
  lemma CleanLeavesNoFence(text: string)
    ensures !Contains(Clean(text), Fence)
    ensures NoFence(Clean(text))
    ensures Clean(text) == "" || (!IsTrimmable(Clean(text)[0]) && !IsTrimmable(Clean(text)[|Clean(text)| - 1]))
  {
    var u := RemoveAll(RemoveAll(text, JsonFence), Fence);
    RemoveFenceLeavesNoFence(RemoveAll(text, JsonFence));
    NoFenceSlice(u, TrimStart(u), TrimEnd(u));
    NoFenceNotContains(Clean(text));
  }

  /** Cleaning a cleaned reply changes nothing. */
  lemma CleanIdempotent(text: string)
    ensures Clean(Clean(text)) == Clean(text)
  {
    var r := Clean(text);
    CleanLeavesNoFence(text);
    RemoveAllAbsent(r, JsonFence);
    RemoveAllAbsent(r, Fence);
    TrimOfTrimmed(r);
  }

  // ---------------------------------------------------------------------------
  // `generateAIResponse`

  /** What the hosted model's SDK call does with a prompt: it throws, or it answers with text. */
  datatype ModelReply = Failed | Replied(text: string)

  /** What `generateAIResponse` hands back: the model's cleaned text, or the mock data. */
  datatype AIResponse = Generated(text: string) | Mock(data: MockData)

  /** A key is configured when it is present and not empty. */
  predicate HasKey(apiKey: Option<string>)
  {
    apiKey.Some? && apiKey.value != ""
  }

  /** `generateAIResponse(prompt)` with the environment's key and the model passed in. */
  function GenerateAIResponse(prompt: string, apiKey: Option<string>, model: string -> ModelReply): AIResponse
  {
    if !HasKey(apiKey) then Mock(MockFor(prompt))
    else match model(EnhancedPrompt(prompt))
      case Failed => Mock(MockFor(prompt))
      case Replied(text) => Generated(Clean(text))
  }

  /** Without a key the model is never consulted: the mock for the prompt comes back whatever
      the model would have done. */
  lemma NoKeyNeverCallsModel(prompt: string, apiKey: Option<string>, m1: string -> ModelReply, m2: string -> ModelReply)
    requires !HasKey(apiKey)
    ensures GenerateAIResponse(prompt, apiKey, m1) == GenerateAIResponse(prompt, apiKey, m2) == Mock(MockFor(prompt))
  {
  }

  /** With a key, only the model's reply to the enhanced prompt matters; a failed call falls
      back to the mock for the prompt, and a reply comes back cleaned. */
  lemma WithKeyUsesModelReply(prompt: string, apiKey: Option<string>, m1: string -> ModelReply, m2: string -> ModelReply)
    requires HasKey(apiKey) && m1(EnhancedPrompt(prompt)) == m2(EnhancedPrompt(prompt))
    ensures GenerateAIResponse(prompt, apiKey, m1) == GenerateAIResponse(prompt, apiKey, m2)
    ensures m1(EnhancedPrompt(prompt)).Failed? ==> GenerateAIResponse(prompt, apiKey, m1) == Mock(MockFor(prompt))
    ensures m1(EnhancedPrompt(prompt)).Replied? ==>
              GenerateAIResponse(prompt, apiKey, m1) == Generated(Clean(m1(EnhancedPrompt(prompt)).text))
  {
  }

  /** Whatever happens, the caller gets either mock data for this very prompt or fence-free,
      trimmed text that a second cleaning would not change. */
  lemma ResponseIsMockOrClean(prompt: string, apiKey: Option<string>, model: string -> ModelReply)
    ensures var r := GenerateAIResponse(prompt, apiKey, model);
            (r.Mock? ==> r.data == MockFor(prompt))
            && (r.Generated? ==>
                  (!Contains(r.text, Fence) && Clean(r.text) == r.text
                   && (r.text == "" || (!IsTrimmable(r.text[0]) && !IsTrimmable(r.text[|r.text| - 1])))))
  {
    var r := GenerateAIResponse(prompt, apiKey, model);
    if r.Generated? {
      var reply := model(EnhancedPrompt(prompt));
      CleanLeavesNoFence(reply.text);
      CleanIdempotent(reply.text);
    }
  }
}
