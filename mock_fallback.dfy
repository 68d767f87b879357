/** How the fallback dispatch treats the plain question prompt. */
module MockFallback {
  import opened Options
  import opened Text
  import QuestionsPrompt
  import AIService
  import AdaptiveQuestionsPrompt

  /** The adaptive template's fixed opening words ("5 adaptive multiple-choice") do not
      contain the plain question marker, so they alone never select a question set. */
  lemma HeaderLeadHasNoMarker()
    ensures !Contains(AdaptiveQuestionsPrompt.HeaderLead, AIService.QuestionMarker)
  {
    var h, m := AdaptiveQuestionsPrompt.HeaderLead, AIService.QuestionMarker;
    assert |m| == 36 && m[0] == 'G' && m[11] == 'm';
    assert |h| == 50 && h[11] == 'a';
    forall i | 0 <= i <= |h|
      ensures !(m <= h[i..])
    {
      if 0 < i && i + |m| <= |h| {
        assert h[i] != 'G';
        assert h[i..][0] != m[0];
      } else if i == 0 {
        assert h[i..][11] != m[11];
      }
    }
  }

  /** The prompt's opening words are the marker the fallback looks for first. */
  lemma MarkersMatchPrompt()
    ensures QuestionsPrompt.QuestionsLead == AIService.QuestionMarker
    ensures QuestionsPrompt.MixedSubjectLead == AIService.MixedMarker
  {
  }

  /** Any prompt carrying the question marker falls back to a well-formed question set, the
      mixed one when it also names both subjects. */
  lemma MarkedPromptGetsQuestions(prompt: string)
    requires Contains(prompt, AIService.QuestionMarker)
    ensures AIService.MockFor(prompt).QuestionSet?
    ensures AIService.WellFormedQuestionSet(AIService.MockFor(prompt).questions)
    ensures Contains(prompt, AIService.MixedMarker) ==> AIService.MockFor(prompt) == AIService.QuestionSet(AIService.MixedQuestions)
  {
    AIService.MockForKinds(prompt);
    AIService.MockDataConsistent(prompt);
  }

  /** The plain question prompt always falls back to a well-formed question set. */
  lemma QuestionsPromptFallsBackToQuestions(grade: string, subject: string)
    ensures AIService.MockFor(QuestionsPrompt.Prompt(grade, subject)).QuestionSet?
    ensures AIService.WellFormedQuestionSet(AIService.MockFor(QuestionsPrompt.Prompt(grade, subject)).questions)
  {
    var prompt := QuestionsPrompt.Prompt(grade, subject);
    QuestionsPrompt.PromptShape(grade, subject);
    MarkersMatchPrompt();
    PrefixContained(prompt, AIService.QuestionMarker);
    MarkedPromptGetsQuestions(prompt);
  }

  /** Asking for both subjects falls back to the mixed question set. */
  lemma BothPromptFallsBackToMixed(grade: string)
    ensures AIService.MockFor(QuestionsPrompt.Prompt(grade, "Both")) == AIService.QuestionSet(AIService.MixedQuestions)
  {
    var prompt := QuestionsPrompt.Prompt(grade, "Both");
    QuestionsPrompt.PromptShape(grade, "Both");
    MarkersMatchPrompt();
    PrefixContained(prompt, AIService.QuestionMarker);
    QuestionsPrompt.BothPromptNamesMixedSubject(grade);
    MarkedPromptGetsQuestions(prompt);
  }

  /** Without a key, or when the model call fails, a request for plain questions still receives
      five well-formed questions. */
  lemma QuestionsRequestAlwaysAnswered(grade: string, subject: string, apiKey: Option<string>,
                                       model: string -> AIService.ModelReply)
    requires !AIService.HasKey(apiKey) || model(AIService.EnhancedPrompt(QuestionsPrompt.Prompt(grade, subject))).Failed?
    ensures var r := AIService.GenerateAIResponse(QuestionsPrompt.Prompt(grade, subject), apiKey, model);
            r.Mock? && r.data.QuestionSet? && AIService.WellFormedQuestionSet(r.data.questions)
  {
    QuestionsPromptFallsBackToQuestions(grade, subject);
  }
}
