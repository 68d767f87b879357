/** The prompt that asks for a personalised weekly learning plan from an assessment result. */
module PlanPrompt {
  import opened Options
  import opened Text

  /** The assessment result the plan is built from; every field may be missing. */
  datatype Analysis = Analysis(
    correctAnswers: Option<int>,
    totalQuestions: Option<int>,
    strengths: Option<seq<string>>,
    weaknesses: Option<seq<string>>,
    currentLevel: Option<string>)

  /** `${n}` for a number that may be `undefined`. */
  function NumberText(n: Option<int>): (r: string)
    ensures n.None? ==> r == "undefined"
    ensures n.Some? ==> ParseInt(r) == n.value
  {
    match n
    case None => "undefined"
    case Some(v) => IntToStringRoundTrip(v); IntToString(v)
  }

  const NotIdentified := "To be identified"
  const DefaultLevel := "Beginner"
  const IntroLead := "You are a friendly AI tutor creating a personalized weekly learning plan for "
  const GradeLead := ", a grade "
  const GradeTail := " student in rural India.\n\nAssessment Results:\n"
  const SubjectLine := "- Subject: "
  const ScoreLine := "\n- Score: "
  const StrengthsLine := "\n- Strengths: "
  const WeaknessesLine := "\n- Weaknesses: "
  const LevelLine := "\n- Current Level: "

  /** The plan request and its JSON format, line by line. */
  const PlanRequestLines: seq<string> := [
    "Create a culturally relevant, engaging weekly learning plan that:",
    "1. Focuses on improving weak areas while reinforcing strengths",
    "2. Uses examples from rural Indian context (village life, local festivals, farming, etc.)",
    "3. Includes offline-friendly activities",
    "4. Mixes Math and English where possible",
    "5. Provides daily challenges that build progressively",
    "",
    "Format as JSON:",
    "{",
    "  \"greeting\": \"Friendly greeting in English\",",
    "  \"greetingHindi\": \"Friendly greeting in Hindi\",",
    "  \"weekTitle\": \"Engaging week theme\",",
    "  \"weekTitleHindi\": \"सप्ताह का विषय\",",
    "  \"motivationalMessage\": \"Encouraging message based on performance\",",
    "  \"motivationalMessageHindi\": \"प्रेरक संदेश\",",
    "  \"days\": [",
    "    {",
    "      \"day\": \"Monday\",",
    "      \"dayHindi\": \"सोमवार\",",
    "      \"topic\": \"Main topic for the day\",",
    "      \"topicHindi\": \"दिन का मुख्य विषय\",",
    "      \"activities\": [",
    "        \"Activity 1 - Specific, actionable task\",",
    "        \"Activity 2 - Practice exercise\",",
    "        \"Activity 3 - Fun challenge\"",
    "      ],",
    "      \"activitiesHindi\": [\"गतिविधि 1\", \"गतिविधि 2\", \"गतिविधि 3\"],",
    "      \"resources\": [\"Offline resource 1\", \"Offline resource 2\"],",
    "      \"estimatedTime\": \"30 minutes\",",
    "      \"difficultyLevel\": \"beginner/intermediate/advanced\"",
    "    }",
    "  ],",
    "  \"weekendChallenge\": {",
    "    \"title\": \"Fun weekend project\",",
    "    \"titleHindi\": \"मज़ेदार सप्ताहांत परियोजना\",",
    "    \"description\": \"Detailed description of the challenge\",",
    "    \"descriptionHindi\": \"चुनौती का विवरण\",",
    "    \"example\": \"Example to guide the student\"",
    "  },",
    "  \"parentGuidance\": {",
    "    \"english\": \"Tips for parents to support learning\",",
    "    \"hindi\": \"माता-पिता के लिए मार्गदर्शन\"",
    "  }",
    "}",
    "",
    "Make it encouraging, fun, and achievable for a rural student with limited internet access."
  ]

  const PlanRequest := Join(PlanRequestLines, "\n")

  function ScoreText(a: Analysis): string
  {
    NumberText(a.correctAnswers) + "/" + NumberText(a.totalQuestions)
  }

  function StrengthsText(a: Analysis): string
  {
    JoinOr(a.strengths, ", ", NotIdentified)
  }

  function WeaknessesText(a: Analysis): string
  {
    JoinOr(a.weaknesses, ", ", NotIdentified)
  }

  function LevelText(a: Analysis): (r: string)
    ensures r != ""
  {
    StringOr(a.currentLevel, DefaultLevel)
  }

  /** Who the plan is for: the learner's name and grade. */
  function Addressee(userName: string, grade: string): string
  {
    IntroLead + userName + GradeLead + grade
  }

  function Greeting(userName: string, grade: string): string
  {
    Addressee(userName, grade) + GradeTail
  }

  /** One line of the assessment results each. */
  function SubjectEntry(subject: string): string { SubjectLine + subject }
  function ScoreEntry(a: Analysis): string { ScoreLine + ScoreText(a) }
  function StrengthsEntry(a: Analysis): string { StrengthsLine + StrengthsText(a) }
  function WeaknessesEntry(a: Analysis): string { WeaknessesLine + WeaknessesText(a) }
  function LevelEntry(a: Analysis): string { LevelLine + LevelText(a) }

  /** The assessment result lines, built up line by line. */
  function ResultsToScore(a: Analysis, subject: string): string
  {
    SubjectEntry(subject) + ScoreEntry(a)
  }

  function ResultsToStrengths(a: Analysis, subject: string): string
  {
    ResultsToScore(a, subject) + StrengthsEntry(a)
  }

  function ResultsToWeaknesses(a: Analysis, subject: string): string
  {
    ResultsToStrengths(a, subject) + WeaknessesEntry(a)
  }

  function Results(a: Analysis, subject: string): string
  {
    ResultsToWeaknesses(a, subject) + LevelEntry(a)
  }

  /** `generatePersonalizedPlanPrompt(analysis, grade, subject, userName)` */
  function Prompt(a: Analysis, grade: string, subject: string, userName: string): string
  {
    Greeting(userName, grade) + Results(a, subject) + "\n\n" + PlanRequest
  }

  lemma ResultsKept(a: Analysis, grade: string, subject: string, userName: string, x: string)
    requires Contains(Results(a, subject), x)
    ensures Contains(Prompt(a, grade, subject, userName), x)
  {
    var r := Results(a, subject);
    ContainsRight(Greeting(userName, grade), r, x);
    ContainsLeft(Greeting(userName, grade) + r, "\n\n", x);
    ContainsLeft(Greeting(userName, grade) + r + "\n\n", PlanRequest, x);
  }

  lemma StrengthsKept(a: Analysis, subject: string, x: string)
    requires Contains(ResultsToStrengths(a, subject), x)
    ensures Contains(Results(a, subject), x)
  {
    ContainsLeft(ResultsToStrengths(a, subject), WeaknessesEntry(a), x);
    ContainsLeft(ResultsToWeaknesses(a, subject), LevelEntry(a), x);
  }

  /** The greeting names the learner and the grade. */
  lemma PromptNamesLearner(a: Analysis, grade: string, subject: string, userName: string)
    ensures Contains(Prompt(a, grade, subject, userName), Addressee(userName, grade))
    ensures Contains(Addressee(userName, grade), userName) && Contains(Addressee(userName, grade), grade)
  {
    var g := Greeting(userName, grade);
    var x := Addressee(userName, grade);
    var r := Results(a, subject);
    ContainsSelf(x);
    ContainsLeft(x, GradeTail, x);
    ContainsLeft(g, r, x);
    ContainsLeft(g + r, "\n\n", x);
    ContainsLeft(g + r + "\n\n", PlanRequest, x);
    ContainsMiddle(IntroLead, userName, GradeLead);
    ContainsLeft(IntroLead + userName + GradeLead, grade, userName);
    ContainsSelf(grade);
    ContainsRight(IntroLead + userName + GradeLead, grade, grade);
  }

  /** The results name the subject and the score. */
  lemma PromptNamesSubjectAndScore(a: Analysis, grade: string, subject: string, userName: string)
    ensures Contains(Prompt(a, grade, subject, userName), SubjectEntry(subject))
    ensures Contains(Prompt(a, grade, subject, userName), ScoreEntry(a))
  {
    var y := SubjectEntry(subject);
    var z := ScoreEntry(a);
    ContainsSelf(y);
    ContainsSelf(z);
    ContainsLeft(y, z, y);
    ContainsRight(y, z, z);
    ContainsLeft(ResultsToScore(a, subject), StrengthsEntry(a), y);
    ContainsLeft(ResultsToScore(a, subject), StrengthsEntry(a), z);
    StrengthsKept(a, subject, y);
    StrengthsKept(a, subject, z);
    ResultsKept(a, grade, subject, userName, y);
    ResultsKept(a, grade, subject, userName, z);
  }

  lemma PromptListsStrength(a: Analysis, grade: string, subject: string, userName: string, k: nat)
    requires a.strengths.Some? && k < |a.strengths.value|
    ensures Contains(Prompt(a, grade, subject, userName), a.strengths.value[k])
  {
    var w := a.strengths.value[k];
    JoinOrContainsPart(a.strengths.value, ", ", NotIdentified, k);
    ContainsRight(StrengthsLine, StrengthsText(a), w);
    ContainsRight(ResultsToScore(a, subject), StrengthsEntry(a), w);
    StrengthsKept(a, subject, w);
    ResultsKept(a, grade, subject, userName, w);
  }

  lemma PromptListsWeakness(a: Analysis, grade: string, subject: string, userName: string, k: nat)
    requires a.weaknesses.Some? && k < |a.weaknesses.value|
    ensures Contains(Prompt(a, grade, subject, userName), a.weaknesses.value[k])
  {
    var w := a.weaknesses.value[k];
    JoinOrContainsPart(a.weaknesses.value, ", ", NotIdentified, k);
    ContainsRight(WeaknessesLine, WeaknessesText(a), w);
    ContainsRight(ResultsToStrengths(a, subject), WeaknessesEntry(a), w);
    ContainsLeft(ResultsToWeaknesses(a, subject), LevelEntry(a), w);
    ResultsKept(a, grade, subject, userName, w);
  }

  /** Every strength and every weakness is listed. */
  lemma PromptListsAreas(a: Analysis, grade: string, subject: string, userName: string)
    ensures a.strengths.Some? ==> forall k :: 0 <= k < |a.strengths.value| ==>
              Contains(Prompt(a, grade, subject, userName), a.strengths.value[k])
    ensures a.weaknesses.Some? ==> forall k :: 0 <= k < |a.weaknesses.value| ==>
              Contains(Prompt(a, grade, subject, userName), a.weaknesses.value[k])
  {
    if a.strengths.Some? {
      forall k | 0 <= k < |a.strengths.value|
        ensures Contains(Prompt(a, grade, subject, userName), a.strengths.value[k])
      {
        PromptListsStrength(a, grade, subject, userName, k);
      }
    }
    if a.weaknesses.Some? {
      forall k | 0 <= k < |a.weaknesses.value|
        ensures Contains(Prompt(a, grade, subject, userName), a.weaknesses.value[k])
      {
        PromptListsWeakness(a, grade, subject, userName, k);
      }
    }
  }

  /** A missing or empty list of strengths reads "To be identified". */
  lemma PromptDefaultsStrengths(a: Analysis, grade: string, subject: string, userName: string)
    requires a.strengths.None? || a.strengths.value == []
    ensures Contains(Prompt(a, grade, subject, userName), StrengthsLine + NotIdentified)
  {
    var x := StrengthsEntry(a);
    ContainsSelf(x);
    ContainsRight(ResultsToScore(a, subject), x, x);
    StrengthsKept(a, subject, x);
    ResultsKept(a, grade, subject, userName, x);
  }

  /** A missing or empty list of weaknesses reads "To be identified". */
  lemma PromptDefaultsWeaknesses(a: Analysis, grade: string, subject: string, userName: string)
    requires a.weaknesses.None? || a.weaknesses.value == []
    ensures Contains(Prompt(a, grade, subject, userName), WeaknessesLine + NotIdentified)
  {
    var x := WeaknessesEntry(a);
    ContainsSelf(x);
    ContainsRight(ResultsToStrengths(a, subject), x, x);
    ContainsLeft(ResultsToWeaknesses(a, subject), LevelEntry(a), x);
    ResultsKept(a, grade, subject, userName, x);
  }

  /** The level line shows the given level, or "Beginner" when none (or an empty one) is given. */
  lemma PromptNamesLevel(a: Analysis, grade: string, subject: string, userName: string)
    ensures Contains(Prompt(a, grade, subject, userName), LevelLine + LevelText(a))
    ensures a.currentLevel.Some? && a.currentLevel.value != "" ==> LevelText(a) == a.currentLevel.value
    ensures a.currentLevel.None? || a.currentLevel.value == "" ==> LevelText(a) == DefaultLevel
  {
    var x := LevelEntry(a);
    ContainsSelf(x);
    ContainsRight(ResultsToWeaknesses(a, subject), x, x);
    ResultsKept(a, grade, subject, userName, x);
  }
}
