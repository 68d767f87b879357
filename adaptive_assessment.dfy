/** The adaptive assessment controller: `evaluateAndAdapt` scores a round, updates the learner's
    progress record and answers with a summary; `getAdaptiveQuestions` reads the record to pick
    the tier and the analysis that go into the next round's prompt. */
module AdaptiveAssessment {
  import opened Options
  import opened Lists
  import opened ProgressSchema
  import opened Scoring
  import AdaptiveQuestionsPrompt
  import AIService

  // ---------------------------------------------------------------------------
  // The summary sent back

  /** `evaluation` in the response body. `score` is `None` when there were no questions (NaN). */
  datatype Evaluation = Evaluation(
    score: Option<int>,
    correctAnswers: nat,
    totalQuestions: nat,
    strengths: seq<string>,
    weaknesses: seq<string>,
    currentLevel: Tier,
    topicBreakdown: TopicTable,
    encouragement: string,
    encouragementHindi: string)

  /** The summary of a round, from the reference counts. */
  function Summary(qs: seq<Question>, answers: Answers): Evaluation
  {
    var c := CountCorrect(qs, answers);
    var table := TallyOf(qs, answers);
    Evaluation(RoundedScore(c, |qs|), c, |qs|, StrengthsOf(table), WeaknessesOf(table),
               NextTier(c, |qs|), table, Encouragement(BandOf(c, |qs|)), EncouragementHindi(BandOf(c, |qs|)))
  }

  /** What the summary reports about the whole round: the raw count and the number of
      questions, the rounded percentage, the tier judged on the whole round and the
      encouragement band judged on the unrounded percentage. */
  lemma SummaryMeaning(qs: seq<Question>, answers: Answers)
    ensures var e := Summary(qs, answers);
            var c := CountCorrect(qs, answers);
            && e.correctAnswers == c && e.totalQuestions == |qs|
            && (e.score.None? <==> |qs| == 0)
            && (e.score.Some? ==>
                  0 <= e.score.value <= 100
                  && 2 * e.score.value * |qs| <= 200 * c + |qs| < 2 * e.score.value * |qs| + 2 * |qs|)
            && (e.currentLevel == Advanced <==> |qs| > 0 && 100 * c >= 80 * |qs|)
            && (e.currentLevel == Intermediate <==> |qs| > 0 && 60 * |qs| <= 100 * c < 80 * |qs|)
            && (e.currentLevel == Beginner <==> !(|qs| > 0 && 100 * c >= 60 * |qs|))
            && (e.encouragement == Encouragement(Excellent) <==> |qs| > 0 && 100 * c >= 70 * |qs|)
            && (e.encouragement == Encouragement(KeepGoing) <==> !(|qs| > 0 && 100 * c >= 50 * |qs|))
  {
    var b := BandOf(CountCorrect(qs, answers), |qs|);
    EncouragementDistinct(b, Excellent);
    EncouragementDistinct(b, KeepGoing);
  }

  /** What the summary reports per topic: each topic of the round once, with its own tally, and
      this round's strengths and weaknesses only. */
  lemma SummaryTopics(qs: seq<Question>, answers: Answers, t: string)
    ensures var e := Summary(qs, answers);
            && Topics(e.topicBreakdown) == Dedup(QuestionTopics(qs))
            && Lookup(e.topicBreakdown, t) == Tally(TopicCorrect(qs, answers, t), TopicCount(qs, t))
            && (t in e.strengths <==> TopicCount(qs, t) > 0 && 100 * TopicCorrect(qs, answers, t) >= 70 * TopicCount(qs, t))
            && (t in e.weaknesses <==> TopicCount(qs, t) > 0 && 100 * TopicCorrect(qs, answers, t) < 50 * TopicCount(qs, t))
  {
    TallyTopics(qs, answers);
    TallyLookup(qs, answers, t);
    RoundClassification(qs, answers, t);
  }

  // ---------------------------------------------------------------------------
  // Updating the progress record

  /** `questions[0]?.difficulty || 'beginner'`: an empty, missing or absent difficulty falls back. */
  function DifficultyText(qs: seq<Question>): (d: string)
    ensures d != ""
    ensures |qs| > 0 && qs[0].difficulty.Some? && qs[0].difficulty.value != "" ==> d == qs[0].difficulty.value
    ensures !(|qs| > 0 && qs[0].difficulty.Some? && qs[0].difficulty.value != "") ==> d == "beginner"
  {
    if |qs| > 0 && qs[0].difficulty.Some? && qs[0].difficulty.value != "" then qs[0].difficulty.value
    else "beginner"
  }

  /** The changes `evaluateAndAdapt` makes to a record before saving it: one history entry more,
      the round's strengths merged into the old ones, the weaknesses replaced, the tier set. */
  function Apply(base: ProgressRecord, entry: ScoreEntry, strengths: seq<string>,
                 weaknesses: seq<string>, tier: Tier, now: Timestamp): (r: ProgressRecord)
    ensures r.assessmentScores == base.assessmentScores + [entry]
    ensures NoDup(r.strengthAreas)
    ensures forall t :: t in r.strengthAreas <==> t in base.strengthAreas || t in strengths
    ensures NoDup(base.strengthAreas) ==> base.strengthAreas <= r.strengthAreas
    ensures r.weaknessAreas == weaknesses
    ensures r.currentDifficultyLevel == tier && r.lastActive == now
    ensures r == base.(assessmentScores := r.assessmentScores, strengthAreas := r.strengthAreas,
                       weaknessAreas := weaknesses, currentDifficultyLevel := tier, lastActive := now)
  {
    DedupUnion(base.strengthAreas, strengths);
    base.(assessmentScores := base.assessmentScores + [entry],
          strengthAreas := Dedup(base.strengthAreas + strengths),
          weaknessAreas := weaknesses,
          currentDifficultyLevel := tier,
          lastActive := now)
  }

  /** The record a round with the given questions and answers leaves behind. */
  function Updated(base: ProgressRecord, qs: seq<Question>, answers: Answers, difficulty: Tier, now: Timestamp): ProgressRecord
  {
    var c := CountCorrect(qs, answers);
    var table := TallyOf(qs, answers);
    Apply(base, NewScoreEntry(c, |qs|, Some(difficulty), now), StrengthsOf(table), WeaknessesOf(table), NextTier(c, |qs|), now)
  }

  /** A round appends exactly one history entry holding the raw count of correct answers, the
      number of questions and the round's difficulty; keeps every old strength and adds the
      round's own; replaces the weaknesses by the round's; sets the tier from the round alone;
      and changes nothing else. */
  lemma UpdateRules(base: ProgressRecord, qs: seq<Question>, answers: Answers, difficulty: Tier, now: Timestamp, t: string)
    ensures var r := Updated(base, qs, answers, difficulty, now);
            var c := CountCorrect(qs, answers);
            && r.assessmentScores == base.assessmentScores + [ScoreEntry(now, c, |qs|, Some(difficulty))]
            && NoDup(r.strengthAreas)
            && (t in r.strengthAreas <==>
                  t in base.strengthAreas || (TopicCount(qs, t) > 0 && 100 * TopicCorrect(qs, answers, t) >= 70 * TopicCount(qs, t)))
            && (NoDup(base.strengthAreas) ==> base.strengthAreas <= r.strengthAreas)
            && (t in r.weaknessAreas <==> TopicCount(qs, t) > 0 && 100 * TopicCorrect(qs, answers, t) < 50 * TopicCount(qs, t))
            && NoDup(r.weaknessAreas)
            && r.currentDifficultyLevel == NextTier(c, |qs|)
            && r.lastActive == now
            && r.userId == base.userId && r.subject == base.subject && r.topic == base.topic
            && r.dailyChallenges == base.dailyChallenges && r.weeklyPlan == base.weeklyPlan
            && r.totalTimeSpent == base.totalTimeSpent
  {
    RoundClassification(qs, answers, t);
  }

  /** Two rounds in a row: the weaknesses are the second round's alone, while strengths found in
      either round, or already on the record, are all kept. */
  lemma TwoRounds(base: ProgressRecord, qs1: seq<Question>, a1: Answers, d1: Tier, now1: Timestamp,
                  qs2: seq<Question>, a2: Answers, d2: Tier, now2: Timestamp, t: string)
    ensures var r := Updated(Updated(base, qs1, a1, d1, now1), qs2, a2, d2, now2);
            && r.weaknessAreas == WeaknessesOf(TallyOf(qs2, a2))
            && |r.assessmentScores| == |base.assessmentScores| + 2
            && r.assessmentScores[..|base.assessmentScores|] == base.assessmentScores
            && (t in r.strengthAreas <==>
                  t in base.strengthAreas || t in StrengthsOf(TallyOf(qs1, a1)) || t in StrengthsOf(TallyOf(qs2, a2)))
  {
    var r1 := Updated(base, qs1, a1, d1, now1);
    var r := Updated(r1, qs2, a2, d2, now2);
    assert r.assessmentScores == base.assessmentScores + [r1.assessmentScores[|base.assessmentScores|]] + [r.assessmentScores[|r1.assessmentScores|]];
  }

  // ---------------------------------------------------------------------------
  // The question phase's view of a record

  /** `previousPerformance`: the last history entry with the record's areas and tier, when the
      record has any history. */
  function LastPerformance(record: ProgressRecord): (p: Option<AdaptiveQuestionsPrompt.PreviousPerformance>)
    ensures p.Some? <==> |record.assessmentScores| > 0
    ensures p.Some? ==>
              var last := record.assessmentScores[|record.assessmentScores| - 1];
              p.value.score == last.score && p.value.total == last.totalQuestions
              && p.value.weakAreas == Some(record.weaknessAreas) && p.value.strongAreas == Some(record.strengthAreas)
              && p.value.currentLevel == record.currentDifficultyLevel
  {
    if |record.assessmentScores| == 0 then None
    else
      var last := record.assessmentScores[|record.assessmentScores| - 1];
      Some(AdaptiveQuestionsPrompt.PreviousPerformance(
        last.score, last.totalQuestions, Some(record.weaknessAreas), Some(record.strengthAreas),
        record.currentDifficultyLevel))
  }

  /** What one evaluated round stores is what the next question round reads back: its count,
      its number of questions, its weaknesses, the merged strengths and its tier. */
  lemma NextRoundAdapts(base: ProgressRecord, qs: seq<Question>, answers: Answers, difficulty: Tier, now: Timestamp)
    ensures var r := Updated(base, qs, answers, difficulty, now);
            LastPerformance(r) == Some(AdaptiveQuestionsPrompt.PreviousPerformance(
              CountCorrect(qs, answers), |qs|, Some(WeaknessesOf(TallyOf(qs, answers))),
              Some(r.strengthAreas), NextTier(CountCorrect(qs, answers), |qs|)))
  {
  }

  /** The response of `getAdaptiveQuestions`: the prompt sent, the tier asked for, where the tier
      came from, the previous performance used, and the service's answer. */
  datatype QuestionRound = QuestionRound(
    prompt: string,
    difficultyLevel: Tier,
    adaptedFrom: string,
    previous: Option<AdaptiveQuestionsPrompt.PreviousPerformance>,
    response: AIService.AIResponse)

  const FromPrevious := "previous performance"
  const FromInitial := "initial assessment"

  /** `if (userId)`: an id is present when it is given and not empty. */
  predicate HasUser(userId: Option<UserId>)
  {
    userId.Some? && userId.value != ""
  }

  /** Why `progress.save()` rejects the document: the enum checks that fail. */
  datatype SaveError = ValidationFailed(invalidSubject: bool, invalidDifficulty: bool)

  datatype Outcome = Evaluated(evaluation: Evaluation) | SaveFailed(error: SaveError)

  // ---------------------------------------------------------------------------
  // The stored records

  /** Each record sits under its own learner and subject, satisfies the schema, and lists
      each strength once. */
  ghost predicate ConsistentRecords(records: map<(UserId, Subject), ProgressRecord>)
  {
    forall key :: key in records ==>
      records[key].userId == key.0 && records[key].subject == key.1
      && ProgressSchema.Valid(records[key]) && NoDup(records[key].strengthAreas)
  }

  /** Storing a consistent record under its own key keeps the collection consistent. */
  lemma StoreKeepsConsistent(records: map<(UserId, Subject), ProgressRecord>, key: (UserId, Subject), r: ProgressRecord)
    requires ConsistentRecords(records)
    requires r.userId == key.0 && r.subject == key.1 && ProgressSchema.Valid(r) && NoDup(r.strengthAreas)
    ensures ConsistentRecords(records[key := r])
  {
  }

  /** The `Progress` collection, one record per learner and subject. */
  class ProgressStore {
    var records: map<(UserId, Subject), ProgressRecord>

    ghost predicate Consistent()
      reads this
    {
      ConsistentRecords(records)
    }

    constructor()
      ensures records == map[] && Consistent()
    {
      records := map[];
    }

    /** `Progress.findOne({ userId, subject })`: a subject outside the enum matches no record. */
    function Find(userId: UserId, subject: string): (r: Option<ProgressRecord>)
      reads this
      ensures r.Some? <==> ParseSubject(subject).Some? && (userId, ParseSubject(subject).value) in records
      ensures r.Some? ==> r.value == records[(userId, ParseSubject(subject).value)]
    {
      var s := ParseSubject(subject);
      if s.Some? && (userId, s.value) in records then Some(records[(userId, s.value)]) else None
    }

    /** The record a round is applied to: the stored one, or a fresh one whose topic is the subject. */
    function Base(userId: UserId, s: Subject, now: Timestamp): (r: ProgressRecord)
      reads this
      ensures (userId, s) in records ==> r == records[(userId, s)]
      ensures (userId, s) !in records ==> r == NewRecord(userId, s, SubjectName(s), now)
    {
      if (userId, s) in records then records[(userId, s)] else NewRecord(userId, s, SubjectName(s), now)
    }

    /** `evaluateAndAdapt`: scores the round and, for a signed-in learner, saves the updated
        record; the save is refused when the subject or the first question's difficulty is
        outside its enum, and then nothing is stored and no summary is sent. */
    method EvaluateAndAdapt(questions: seq<Question>, userAnswers: Answers, subject: string,
                            userId: Option<UserId>, now: Timestamp) returns (outcome: Outcome)
      requires Consistent()
      modifies this
      ensures Consistent()
      ensures !HasUser(userId) ==> records == old(records) && outcome == Evaluated(Summary(questions, userAnswers))
      ensures HasUser(userId) && ParseSubject(subject).Some? && ParseTier(DifficultyText(questions)).Some? ==>
                var key := (userId.value, ParseSubject(subject).value);
                outcome == Evaluated(Summary(questions, userAnswers))
                && records == old(records)[key := Updated(old(Base(key.0, key.1, now)), questions, userAnswers,
                                                          ParseTier(DifficultyText(questions)).value, now)]
      ensures HasUser(userId) && (ParseSubject(subject).None? || ParseTier(DifficultyText(questions)).None?) ==>
                records == old(records)
                && outcome == SaveFailed(ValidationFailed(ParseSubject(subject).None?, ParseTier(DifficultyText(questions)).None?))
    {
      var correctCount, topicPerformance := TallyQuestions(questions, userAnswers);
      var strengths, weaknesses := ClassifyTopics(topicPerformance);
      var nextDifficulty := NextTier(correctCount, |questions|);

      if HasUser(userId) {
        var s := ParseSubject(subject);
        var difficulty := ParseTier(DifficultyText(questions));
        if s.None? || difficulty.None? {
          return SaveFailed(ValidationFailed(s.None?, difficulty.None?));
        }
        var key := (userId.value, s.value);
        var progress := Base(key.0, key.1, now);
        ghost var base := progress;
        progress := Apply(progress, NewScoreEntry(correctCount, |questions|, difficulty, now),
                          strengths, weaknesses, nextDifficulty, now);
        assert progress == Updated(base, questions, userAnswers, difficulty.value, now);
        StoreKeepsConsistent(records, key, progress);
        records := records[key := progress];
      }

      var band := BandOf(correctCount, |questions|);
      outcome := Evaluated(Evaluation(RoundedScore(correctCount, |questions|), correctCount, |questions|,
                                      strengths, weaknesses, nextDifficulty, topicPerformance,
                                      Encouragement(band), EncouragementHindi(band)));
    }

    /** `getAdaptiveQuestions`: the tier and the analysis come from the stored record only when
        it holds at least one round; otherwise the learner starts at the beginner tier. The
        record is only read. */
    function GetAdaptiveQuestions(userId: Option<UserId>, grade: string, subject: string,
                                  apiKey: Option<string>, model: string -> AIService.ModelReply): (r: QuestionRound)
      reads this
      ensures r.previous.Some? <==>
                HasUser(userId) && Find(userId.value, subject).Some?
                && |Find(userId.value, subject).value.assessmentScores| > 0
      ensures r.previous.Some? ==> r.previous == LastPerformance(Find(userId.value, subject).value)
      ensures r.difficultyLevel == (if r.previous.Some? then r.previous.value.currentLevel else Beginner)
      ensures r.adaptedFrom == (if r.previous.Some? then FromPrevious else FromInitial)
      ensures r.prompt == AdaptiveQuestionsPrompt.Prompt(grade, subject, Some(r.difficultyLevel), r.previous)
      ensures r.response == AIService.GenerateAIResponse(r.prompt, apiKey, model)
    {
      var previous :=
        if HasUser(userId) && Find(userId.value, subject).Some? then LastPerformance(Find(userId.value, subject).value)
        else None;
      var difficultyLevel := if previous.Some? then previous.value.currentLevel else Beginner;
      var prompt := AdaptiveQuestionsPrompt.Prompt(grade, subject, Some(difficultyLevel), previous);
      QuestionRound(prompt, difficultyLevel, if previous.Some? then FromPrevious else FromInitial,
                    previous, AIService.GenerateAIResponse(prompt, apiKey, model))
    }
  }
}
