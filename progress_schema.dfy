/** The `Progress` document: one learner's record for one subject, with its assessment
    history, strength and weakness areas and adaptive difficulty tier. */
module ProgressSchema {
  import opened Options

  /** A point in time (milliseconds since the epoch). */
  type Timestamp = int

  /** A user's database identifier. */
  type UserId = string

  /** The `subject` enum. */
  datatype Subject = Math | English | Both

  /** The difficulty enum shared by `currentDifficultyLevel` and score entries. */
  datatype Tier = Beginner | Intermediate | Advanced

  function SubjectName(s: Subject): string
  {
    match s
    case Math => "Math"
    case English => "English"
    case Both => "Both"
  }

  /** Enum validation of a `subject` value: exactly the three names are accepted. */
  function ParseSubject(name: string): (r: Option<Subject>)
    ensures r.Some? <==> name in {"Math", "English", "Both"}
    ensures r.Some? ==> SubjectName(r.value) == name
  {
    if name == "Math" then Some(Math)
    else if name == "English" then Some(English)
    else if name == "Both" then Some(Both)
    else None
  }

  lemma SubjectNameRoundTrip(s: Subject)
    ensures ParseSubject(SubjectName(s)) == Some(s)
  {
  }

  function TierName(t: Tier): string
  {
    match t
    case Beginner => "beginner"
    case Intermediate => "intermediate"
    case Advanced => "advanced"
  }

  /** Enum validation of a difficulty value: exactly the three lower-case names are accepted. */
  function ParseTier(name: string): (r: Option<Tier>)
    ensures r.Some? <==> name in {"beginner", "intermediate", "advanced"}
    ensures r.Some? ==> TierName(r.value) == name
  {
    if name == "beginner" then Some(Beginner)
    else if name == "intermediate" then Some(Intermediate)
    else if name == "advanced" then Some(Advanced)
    else None
  }

  lemma TierNameRoundTrip(t: Tier)
    ensures ParseTier(TierName(t)) == Some(t)
  {
  }

  /** One entry of `assessmentScores`; `score` counts correct answers. */
  datatype ScoreEntry = ScoreEntry(date: Timestamp, score: int, totalQuestions: int, difficulty: Option<Tier>)

  datatype DailyChallenge = DailyChallenge(date: Option<Timestamp>, topic: Option<string>, completed: bool, score: Option<int>)

  datatype PlanTopic = PlanTopic(day: Option<string>, topic: Option<string>, activities: seq<string>, completed: bool)

  datatype WeeklyPlan = WeeklyPlan(weekNumber: Option<int>, startDate: Option<Timestamp>, endDate: Option<Timestamp>, topics: seq<PlanTopic>)

  datatype ProgressRecord = ProgressRecord(
    userId: UserId,
    subject: Subject,
    topic: string,
    assessmentScores: seq<ScoreEntry>,
    strengthAreas: seq<string>,
    weaknessAreas: seq<string>,
    currentDifficultyLevel: Tier,
    dailyChallenges: seq<DailyChallenge>,
    weeklyPlan: WeeklyPlan,
    totalTimeSpent: int,
    lastActive: Timestamp)

  /** The schema's `required` constraints that the field types do not already enforce. */
  predicate Valid(r: ProgressRecord)
  {
    r.topic != ""
  }

  /** `new Progress({userId, subject, topic})`: every field not given takes the schema's default. */
  function NewRecord(userId: UserId, subject: Subject, topic: string, now: Timestamp): (r: ProgressRecord)
    ensures r.userId == userId && r.subject == subject && r.topic == topic
    ensures r.assessmentScores == [] && r.strengthAreas == [] && r.weaknessAreas == []
    ensures r.currentDifficultyLevel == Beginner
    ensures r.dailyChallenges == [] && r.weeklyPlan.topics == []
    ensures r.totalTimeSpent == 0 && r.lastActive == now
  {
    ProgressRecord(userId, subject, topic, [], [], [], Beginner, [],
                   WeeklyPlan(None, None, None, []), 0, now)
  }

  /** A score entry pushed without a date is stamped with the time it is created. */
  function NewScoreEntry(score: int, totalQuestions: int, difficulty: Option<Tier>, now: Timestamp): (e: ScoreEntry)
    ensures e.date == now
    ensures e.score == score && e.totalQuestions == totalQuestions && e.difficulty == difficulty
  {
    ScoreEntry(now, score, totalQuestions, difficulty)
  }

  /** A daily challenge starts out not completed. */
  function NewDailyChallenge(date: Option<Timestamp>, topic: Option<string>, score: Option<int>): (c: DailyChallenge)
    ensures !c.completed
    ensures c.date == date && c.topic == topic && c.score == score
  {
    DailyChallenge(date, topic, false, score)
  }

  /** A weekly-plan topic starts out not completed. */
  function NewPlanTopic(day: Option<string>, topic: Option<string>, activities: seq<string>): (t: PlanTopic)
    ensures !t.completed
    ensures t.day == day && t.topic == topic && t.activities == activities
  {
    PlanTopic(day, topic, activities, false)
  }
}
