/** The prompt for an adaptive round of five questions, tuned to a tier and, when the learner
    has a history, to the outcome of the last round. */
module AdaptiveQuestionsPrompt {
  import opened Options
  import opened Text
  import opened ProgressSchema
  import QuestionsPrompt

  /** What the controller reports about the learner's last round. */
  datatype PreviousPerformance = PreviousPerformance(
    score: int,
    total: int,
    weakAreas: Option<seq<string>>,
    strongAreas: Option<seq<string>>,
    currentLevel: Tier)

  /** The math curriculum per tier. */
  function MathTopics(t: Tier): (topics: seq<string>)
    ensures |topics| == (match t case Beginner => 3 case Intermediate => 4 case Advanced => 5)
    ensures forall k :: 0 <= k < |topics| ==> topics[k] != ""
  {
    match t
    case Beginner => ["Basic Addition and Subtraction", "Simple Multiplication", "Basic Fractions"]
    case Intermediate => ["Large Numbers", "Decimals", "Simple Geometry", "Time and Money"]
    case Advanced => ["Factors and Multiples", "H.C.F and L.C.M", "Percentages", "Mensuration", "Profit and Loss"]
  }

  /** The English curriculum per tier. */
  function EnglishTopics(t: Tier): (topics: seq<string>)
    ensures |topics| == 3
    ensures forall k :: 0 <= k < |topics| ==> topics[k] != ""
  {
    match t
    case Beginner => ["Basic Vocabulary", "Simple Sentences", "Common Words"]
    case Intermediate => ["Reading Comprehension", "Grammar Basics", "Story Writing"]
    case Advanced => ["Advanced Grammar", "Essay Writing", "Literature Analysis"]
  }

  const IntroLead := "You are a friendly AI tutor for rural Indian students in grade "
  const HeaderLead := "Generate 5 adaptive " + "multiple-choice questions for "
  /** The template's multi-line passages are written as their lines joined by newlines. */
  const ContextualExamples := Join([
    "",
    "Use culturally relevant examples for rural Indian students:",
    "- For math: Use examples with rupees, kilograms, meters, village markets, farms, cricket",
    "- For English: Use simple stories about village life, animals, festivals, family",
    "- Make questions relatable to daily life in rural India",
    ""
  ], "\n")
  const AnalysisHeading := "\nPrevious Performance Analysis:\n- Score: "
  const WeakLead := "\n- Weak Areas: "
  const StrongLead := "\n- Strong Areas: "
  const NoAreas := "None identified"
  const FocusInstruction := "IMPORTANT: Focus more questions on the weak areas to help the student improve."
  const MathHeading := "For Math questions, cover these topic areas:\n"
  const EnglishHeading := "For English questions, cover these areas:\n"
  const FormatLead := Join([
    "Format the output STRICTLY as a JSON array with this structure:",
    "[",
    "  {",
    "    \"id\": 1,",
    "    \"question\": \"Question text in simple English\",",
    "    \"questionHindi\": \"Question in Hindi (Devanagari script)\",",
    "    \"options\": [\"Option A\", \"Option B\", \"Option C\", \"Option D\"],",
    "    \"optionsHindi\": [\"विकल्प A\", \"विकल्प B\", \"विकल्प C\", \"विकल्प D\"],",
    "    \"correctAnswer\": \"Option A\",",
    "    \"topic\": \"Specific topic name\",",
    ""
  ], "\n")
  const DifficultyKey := "    \"difficulty\": \""
  const FormatTail := Join([
    "\",",
    "    \"explanation\": \"Simple explanation of the answer\",",
    "    \"explanationHindi\": \"उत्तर की सरल व्याख्या\"",
    "  }",
    "]",
    "",
    "Make questions engaging and age-appropriate for grade "
  ], "\n")

  /** `difficultyLevel = 'beginner'`: the tier used when the caller gives none. */
  function TierOrDefault(difficultyLevel: Option<Tier>): (t: Tier)
    ensures difficultyLevel.None? ==> t == Beginner
    ensures difficultyLevel.Some? ==> t == difficultyLevel.value
  {
    if difficultyLevel.Some? then difficultyLevel.value else Beginner
  }

  function WeakText(p: PreviousPerformance): string
  {
    JoinOr(p.weakAreas, ", ", NoAreas)
  }

  function StrongText(p: PreviousPerformance): string
  {
    JoinOr(p.strongAreas, ", ", NoAreas)
  }

  /** The score line's value, `${score}/${total}`. */
  function ScoreText(p: PreviousPerformance): string
  {
    IntToString(p.score) + "/" + IntToString(p.total)
  }

  /** The analysis of the last round that a learner with a history gets. */
  function AnalysisBlock(p: PreviousPerformance): string
  {
    AnalysisHeading + ScoreText(p) + WeakLead + WeakText(p) + StrongLead + StrongText(p)
      + "\n\n" + FocusInstruction + "\n"
  }

  /** The topic list of one subject: filled in only when the requested subject covers it. */
  function MathList(subject: string, t: Tier): string
  {
    if subject == "Math" || subject == "Both" then Join(MathTopics(t), ", ") else ""
  }

  function EnglishList(subject: string, t: Tier): string
  {
    if subject == "English" || subject == "Both" then Join(EnglishTopics(t), ", ") else ""
  }

  /** The request sentence: subject text and tier. */
  function Header(subject: string, t: Tier): string
  {
    HeaderLead + QuestionsPrompt.SubjectText(subject) + " at " + TierName(t) + " level."
  }

  function TopicSections(subject: string, t: Tier): string
  {
    MathHeading + MathList(subject, t) + "\n\n" + EnglishHeading + EnglishList(subject, t)
  }

  /** Everything before the analysis slot. */
  function Lead(grade: string, subject: string, t: Tier): string
  {
    IntroLead + grade + ".\n\n" + Header(subject, t) + "\n\n" + ContextualExamples + "\n\n"
  }

  /** The example object's `difficulty` field, open at its closing quote. */
  function DifficultyField(t: Tier): string
  {
    DifficultyKey + TierName(t)
  }

  /** Everything after the analysis slot. */
  function Rest(grade: string, subject: string, t: Tier): string
  {
    "\n\n" + TopicSections(subject, t) + "\n\n" + FormatLead + DifficultyField(t)
      + FormatTail + grade + " students."
  }

  /** `generateAdaptiveQuestionsPrompt(grade, subject, difficultyLevel, previousPerformance)` */
  function Prompt(grade: string, subject: string, difficultyLevel: Option<Tier>,
                  previous: Option<PreviousPerformance>): string
  {
    var t := TierOrDefault(difficultyLevel);
    match previous
    case None => Lead(grade, subject, t) + Rest(grade, subject, t)
    case Some(p) => Lead(grade, subject, t) + AnalysisBlock(p) + Rest(grade, subject, t)
  }

  /** The position at which the analysis of the last round is placed. */
  function AnalysisPosition(grade: string, subject: string, difficultyLevel: Option<Tier>): nat
  {
    |Lead(grade, subject, TierOrDefault(difficultyLevel))|
  }

  /** A history changes the prompt in one way only: the analysis block is inserted at one
      position of the prompt a first-time learner gets. */
  lemma HistoryOnlyInsertsAnalysis(grade: string, subject: string, difficultyLevel: Option<Tier>,
                                   p: PreviousPerformance)
    ensures var plain := Prompt(grade, subject, difficultyLevel, None);
            var k := AnalysisPosition(grade, subject, difficultyLevel);
            k <= |plain|
            && Prompt(grade, subject, difficultyLevel, Some(p)) == plain[..k] + AnalysisBlock(p) + plain[k..]
  {
    var t := TierOrDefault(difficultyLevel);
    InsertBetween(Lead(grade, subject, t), AnalysisBlock(p), Rest(grade, subject, t));
  }

  /** Placing a piece between two texts inserts it into their concatenation. */
  lemma InsertBetween(a: string, m: string, b: string)
    ensures |a| <= |a + b|
    ensures a + m + b == (a + b)[..|a|] + m + (a + b)[|a|..]
  {
    assert (a + b)[..|a|] == a;
    assert (a + b)[|a|..] == b;
  }

  /** The block up to the strong areas; the rest is the focus instruction. */
  function AnalysisFacts(p: PreviousPerformance): string
  {
    AnalysisHeading + ScoreText(p) + WeakLead + WeakText(p) + StrongLead + StrongText(p)
  }

  lemma AnalysisFactsKept(p: PreviousPerformance, x: string)
    requires Contains(AnalysisFacts(p), x)
    ensures Contains(AnalysisBlock(p), x)
  {
    var a := AnalysisFacts(p);
    ContainsLeft(a, "\n\n", x);
    ContainsLeft(a + "\n\n", FocusInstruction, x);
    ContainsLeft(a + "\n\n" + FocusInstruction, "\n", x);
  }

  lemma AnalysisReportsScore(p: PreviousPerformance)
    ensures Contains(AnalysisBlock(p), ScoreText(p))
  {
    var x := ScoreText(p);
    ContainsMiddle(AnalysisHeading, x, "");
    assert AnalysisHeading + x + "" == AnalysisHeading + x;
    ContainsLeft(AnalysisHeading + x, WeakLead, x);
    ContainsLeft(AnalysisHeading + x + WeakLead, WeakText(p), x);
    ContainsLeft(AnalysisHeading + x + WeakLead + WeakText(p), StrongLead, x);
    ContainsLeft(AnalysisHeading + x + WeakLead + WeakText(p) + StrongLead, StrongText(p), x);
    AnalysisFactsKept(p, x);
  }

  lemma AnalysisReportsFocus(p: PreviousPerformance)
    ensures Contains(AnalysisBlock(p), FocusInstruction)
  {
    ContainsMiddle(AnalysisFacts(p) + "\n\n", FocusInstruction, "\n");
  }

  lemma AnalysisReportsWeakArea(p: PreviousPerformance, k: nat)
    requires p.weakAreas.Some? && k < |p.weakAreas.value|
    ensures Contains(AnalysisBlock(p), p.weakAreas.value[k])
  {
    var w := p.weakAreas.value[k];
    var a2 := AnalysisHeading + ScoreText(p) + WeakLead;
    JoinOrContainsPart(p.weakAreas.value, ", ", NoAreas, k);
    ContainsRight(a2, WeakText(p), w);
    ContainsLeft(a2 + WeakText(p), StrongLead, w);
    ContainsLeft(a2 + WeakText(p) + StrongLead, StrongText(p), w);
    AnalysisFactsKept(p, w);
  }

  lemma AnalysisReportsStrongArea(p: PreviousPerformance, k: nat)
    requires p.strongAreas.Some? && k < |p.strongAreas.value|
    ensures Contains(AnalysisBlock(p), p.strongAreas.value[k])
  {
    var w := p.strongAreas.value[k];
    var a4 := AnalysisHeading + ScoreText(p) + WeakLead + WeakText(p) + StrongLead;
    JoinOrContainsPart(p.strongAreas.value, ", ", NoAreas, k);
    ContainsRight(a4, StrongText(p), w);
    AnalysisFactsKept(p, w);
  }

  /** With no recorded weak areas the block says so. */
  lemma AnalysisReportsNoWeakAreas(p: PreviousPerformance)
    requires p.weakAreas.None? || p.weakAreas.value == []
    ensures Contains(AnalysisBlock(p), WeakLead + NoAreas)
  {
    var a1 := AnalysisHeading + ScoreText(p);
    var x := WeakLead + NoAreas;
    assert WeakText(p) == NoAreas;
    ContainsMiddle(a1, x, "");
    assert a1 + x + "" == a1 + WeakLead + WeakText(p);
    ContainsLeft(a1 + WeakLead + WeakText(p), StrongLead, x);
    ContainsLeft(a1 + WeakLead + WeakText(p) + StrongLead, StrongText(p), x);
    AnalysisFactsKept(p, x);
  }

  /** The analysis block reports the last score, every weak area, every strong area and the
      instruction to concentrate on the weak areas. */
  lemma AnalysisBlockReports(p: PreviousPerformance)
    ensures Contains(AnalysisBlock(p), ScoreText(p))
    ensures Contains(AnalysisBlock(p), FocusInstruction)
    ensures p.weakAreas.Some? ==>
      forall k :: 0 <= k < |p.weakAreas.value| ==> Contains(AnalysisBlock(p), p.weakAreas.value[k])
    ensures p.strongAreas.Some? ==>
      forall k :: 0 <= k < |p.strongAreas.value| ==> Contains(AnalysisBlock(p), p.strongAreas.value[k])
    ensures (p.weakAreas.None? || p.weakAreas.value == []) ==> Contains(AnalysisBlock(p), WeakLead + NoAreas)
  {
    AnalysisReportsScore(p);
    AnalysisReportsFocus(p);
    if p.weakAreas.Some? {
      forall k | 0 <= k < |p.weakAreas.value|
        ensures Contains(AnalysisBlock(p), p.weakAreas.value[k])
      {
        AnalysisReportsWeakArea(p, k);
      }
    }
    if p.strongAreas.Some? {
      forall k | 0 <= k < |p.strongAreas.value|
        ensures Contains(AnalysisBlock(p), p.strongAreas.value[k])
      {
        AnalysisReportsStrongArea(p, k);
      }
    }
    if p.weakAreas.None? || p.weakAreas.value == [] {
      AnalysisReportsNoWeakAreas(p);
    }
  }

  /** Whatever the analysis block reports, the prompt of a learner with a history reports. */
  lemma PromptCarriesAnalysis(grade: string, subject: string, difficultyLevel: Option<Tier>,
                              p: PreviousPerformance)
    ensures Contains(Prompt(grade, subject, difficultyLevel, Some(p)), AnalysisBlock(p))
  {
    var t := TierOrDefault(difficultyLevel);
    ContainsMiddle(Lead(grade, subject, t), AnalysisBlock(p), Rest(grade, subject, t));
  }

  /** What the lead or the rest contains, the prompt contains. */
  lemma LeadKept(grade: string, subject: string, difficultyLevel: Option<Tier>,
                 previous: Option<PreviousPerformance>, x: string)
    requires Contains(Lead(grade, subject, TierOrDefault(difficultyLevel)), x)
    ensures Contains(Prompt(grade, subject, difficultyLevel, previous), x)
  {
    var t := TierOrDefault(difficultyLevel);
    if previous.Some? {
      ContainsLeft(Lead(grade, subject, t), AnalysisBlock(previous.value), x);
      ContainsLeft(Lead(grade, subject, t) + AnalysisBlock(previous.value), Rest(grade, subject, t), x);
    } else {
      ContainsLeft(Lead(grade, subject, t), Rest(grade, subject, t), x);
    }
  }

  lemma RestKept(grade: string, subject: string, difficultyLevel: Option<Tier>,
                 previous: Option<PreviousPerformance>, x: string)
    requires Contains(Rest(grade, subject, TierOrDefault(difficultyLevel)), x)
    ensures Contains(Prompt(grade, subject, difficultyLevel, previous), x)
  {
    var t := TierOrDefault(difficultyLevel);
    if previous.Some? {
      ContainsRight(Lead(grade, subject, t) + AnalysisBlock(previous.value), Rest(grade, subject, t), x);
    } else {
      ContainsRight(Lead(grade, subject, t), Rest(grade, subject, t), x);
    }
  }

  /** The request sentence names the subject text and the tier. */
  lemma HeaderNamesSubjectAndTier(subject: string, t: Tier)
    ensures Contains(Header(subject, t), QuestionsPrompt.SubjectText(subject))
    ensures Contains(Header(subject, t), TierName(t))
  {
    var st := QuestionsPrompt.SubjectText(subject);
    ContainsMiddle(HeaderLead, st, " at ");
    ContainsLeft(HeaderLead + st + " at ", TierName(t), st);
    ContainsLeft(HeaderLead + st + " at " + TierName(t), " level.", st);
    ContainsMiddle(HeaderLead + st + " at ", TierName(t), " level.");
  }

  lemma PromptCarriesHeader(grade: string, subject: string, difficultyLevel: Option<Tier>,
                            previous: Option<PreviousPerformance>)
    ensures Contains(Prompt(grade, subject, difficultyLevel, previous), Header(subject, TierOrDefault(difficultyLevel)))
  {
    var h := Header(subject, TierOrDefault(difficultyLevel));
    var l1 := IntroLead + grade + ".\n\n";
    ContainsMiddle(l1, h, "\n\n");
    ContainsLeft(l1 + h + "\n\n", ContextualExamples, h);
    ContainsLeft(l1 + h + "\n\n" + ContextualExamples, "\n\n", h);
    LeadKept(grade, subject, difficultyLevel, previous, h);
  }

  lemma PromptCarriesDifficulty(grade: string, subject: string, difficultyLevel: Option<Tier>,
                                previous: Option<PreviousPerformance>)
    ensures Contains(Prompt(grade, subject, difficultyLevel, previous), DifficultyField(TierOrDefault(difficultyLevel)))
  {
    var t := TierOrDefault(difficultyLevel);
    var field := DifficultyField(t);
    var r1 := "\n\n" + TopicSections(subject, t) + "\n\n" + FormatLead;
    ContainsMiddle(r1, field, FormatTail);
    ContainsLeft(r1 + field + FormatTail, grade, field);
    ContainsLeft(r1 + field + FormatTail + grade, " students.", field);
    RestKept(grade, subject, difficultyLevel, previous, field);
  }

  /** The prompt asks for the requested subject at the requested tier, and the example object
      carries that tier as its difficulty. */
  lemma PromptNamesSubjectAndTier(grade: string, subject: string, difficultyLevel: Option<Tier>,
                                  previous: Option<PreviousPerformance>)
    ensures var t := TierOrDefault(difficultyLevel);
            var pr := Prompt(grade, subject, difficultyLevel, previous);
            Contains(pr, Header(subject, t))
            && Contains(Header(subject, t), QuestionsPrompt.SubjectText(subject))
            && Contains(Header(subject, t), TierName(t))
            && Contains(pr, DifficultyKey + TierName(t))
  {
    PromptCarriesHeader(grade, subject, difficultyLevel, previous);
    HeaderNamesSubjectAndTier(subject, TierOrDefault(difficultyLevel));
    PromptCarriesDifficulty(grade, subject, difficultyLevel, previous);
  }

  /** The topic sections sit in the prompt, whatever the history. */
  lemma PromptCarriesTopicSections(grade: string, subject: string, difficultyLevel: Option<Tier>,
                                   previous: Option<PreviousPerformance>)
    ensures Contains(Prompt(grade, subject, difficultyLevel, previous),
                     TopicSections(subject, TierOrDefault(difficultyLevel)))
  {
    var t := TierOrDefault(difficultyLevel);
    var s := TopicSections(subject, t);
    ContainsMiddle("\n\n", s, "\n\n");
    ContainsLeft("\n\n" + s + "\n\n", FormatLead, s);
    ContainsLeft("\n\n" + s + "\n\n" + FormatLead, DifficultyField(t), s);
    ContainsLeft("\n\n" + s + "\n\n" + FormatLead + DifficultyField(t), FormatTail, s);
    ContainsLeft("\n\n" + s + "\n\n" + FormatLead + DifficultyField(t) + FormatTail, grade, s);
    ContainsLeft("\n\n" + s + "\n\n" + FormatLead + DifficultyField(t) + FormatTail + grade, " students.", s);
    RestKept(grade, subject, difficultyLevel, previous, s);
  }

  /** A math topic of the tier is listed exactly when the subject is "Math" or "Both". */
  lemma MathListCoversTopics(subject: string, t: Tier, k: nat)
    requires k < |MathTopics(t)|
    ensures Contains(MathList(subject, t), MathTopics(t)[k]) <==> subject == "Math" || subject == "Both"
  {
    if subject == "Math" || subject == "Both" {
      JoinContainsPart(MathTopics(t), ", ", k);
    }
  }

  /** An English topic of the tier is listed exactly when the subject is "English" or "Both". */
  lemma EnglishListCoversTopics(subject: string, t: Tier, k: nat)
    requires k < |EnglishTopics(t)|
    ensures Contains(EnglishList(subject, t), EnglishTopics(t)[k]) <==> subject == "English" || subject == "Both"
  {
    if subject == "English" || subject == "Both" {
      JoinContainsPart(EnglishTopics(t), ", ", k);
    }
  }

  /** The topic sections list, topic by topic, the curriculum of each subject that was asked for. */
  lemma SectionsCoverCurricula(subject: string, t: Tier)
    ensures (subject == "Math" || subject == "Both") ==>
              forall k :: 0 <= k < |MathTopics(t)| ==> Contains(TopicSections(subject, t), MathTopics(t)[k])
    ensures (subject == "English" || subject == "Both") ==>
              forall k :: 0 <= k < |EnglishTopics(t)| ==> Contains(TopicSections(subject, t), EnglishTopics(t)[k])
  {
    var ml := MathList(subject, t);
    var el := EnglishList(subject, t);
    if subject == "Math" || subject == "Both" {
      forall k | 0 <= k < |MathTopics(t)|
        ensures Contains(TopicSections(subject, t), MathTopics(t)[k])
      {
        MathListCoversTopics(subject, t, k);
        ContainsRight(MathHeading, ml, MathTopics(t)[k]);
        ContainsLeft(MathHeading + ml, "\n\n", MathTopics(t)[k]);
        ContainsLeft(MathHeading + ml + "\n\n", EnglishHeading, MathTopics(t)[k]);
        ContainsLeft(MathHeading + ml + "\n\n" + EnglishHeading, el, MathTopics(t)[k]);
      }
    }
    if subject == "English" || subject == "Both" {
      forall k | 0 <= k < |EnglishTopics(t)|
        ensures Contains(TopicSections(subject, t), EnglishTopics(t)[k])
      {
        EnglishListCoversTopics(subject, t, k);
        ContainsRight(MathHeading + ml + "\n\n" + EnglishHeading, el, EnglishTopics(t)[k]);
      }
    }
  }

  /** The math curriculum of the tier reaches the prompt when math was asked for. */
  lemma PromptCoversMath(grade: string, subject: string, difficultyLevel: Option<Tier>,
                         previous: Option<PreviousPerformance>)
    ensures var t := TierOrDefault(difficultyLevel);
            var pr := Prompt(grade, subject, difficultyLevel, previous);
            (subject == "Math" || subject == "Both") ==> forall k :: 0 <= k < |MathTopics(t)| ==> Contains(pr, MathTopics(t)[k])
  {
    var t := TierOrDefault(difficultyLevel);
    var pr := Prompt(grade, subject, difficultyLevel, previous);
    PromptCarriesTopicSections(grade, subject, difficultyLevel, previous);
    SectionsCoverCurricula(subject, t);
    if subject == "Math" || subject == "Both" {
      ContainsEach(pr, TopicSections(subject, t), MathTopics(t));
    }
  }

  /** The English curriculum of the tier reaches the prompt when English was asked for. */
  lemma PromptCoversEnglish(grade: string, subject: string, difficultyLevel: Option<Tier>,
                            previous: Option<PreviousPerformance>)
    ensures var t := TierOrDefault(difficultyLevel);
            var pr := Prompt(grade, subject, difficultyLevel, previous);
            (subject == "English" || subject == "Both") ==> forall k :: 0 <= k < |EnglishTopics(t)| ==> Contains(pr, EnglishTopics(t)[k])
  {
    var t := TierOrDefault(difficultyLevel);
    var pr := Prompt(grade, subject, difficultyLevel, previous);
    PromptCarriesTopicSections(grade, subject, difficultyLevel, previous);
    SectionsCoverCurricula(subject, t);
    if subject == "English" || subject == "Both" {
      ContainsEach(pr, TopicSections(subject, t), EnglishTopics(t));
    }
  }
}
