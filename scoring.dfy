/** Scoring one assessment round: the per-topic tally of the submitted questions, the
    strength/weakness classification of the topics and the next difficulty tier. */
module Scoring {
  import opened Options
  import opened Lists
  import opened ProgressSchema

  type QuestionId = int

  /** A question as the client sends it back with the answers. */
  datatype Question = Question(id: QuestionId, topic: string, correctAnswer: Option<string>, difficulty: Option<string>)

  /** `userAnswers`: the chosen option text per question id. */
  type Answers = map<QuestionId, string>

  function AnswerFor(answers: Answers, id: QuestionId): Option<string>
  {
    if id in answers then Some(answers[id]) else None
  }

  /** `userAnswers[q.id] === q.correctAnswer`: strict equality, under which a missing answer
      matches only a missing correct answer. */
  predicate IsCorrect(q: Question, answers: Answers)
  {
    AnswerFor(answers, q.id) == q.correctAnswer
  }

  function Bit(b: bool): nat
  {
    if b then 1 else 0
  }

  // ---------------------------------------------------------------------------
  // Reference counts over the questions

  /** Number of correctly answered questions. */
  function CountCorrect(qs: seq<Question>, answers: Answers): (n: nat)
    ensures n <= |qs|
    decreases |qs|
  {
    if |qs| == 0 then 0
    else CountCorrect(qs[..|qs| - 1], answers) + Bit(IsCorrect(qs[|qs| - 1], answers))
  }

  /** Number of questions on `topic`. */
  function TopicCount(qs: seq<Question>, topic: string): (n: nat)
    ensures n <= |qs|
    decreases |qs|
  {
    if |qs| == 0 then 0
    else TopicCount(qs[..|qs| - 1], topic) + Bit(qs[|qs| - 1].topic == topic)
  }

  /** Number of correctly answered questions on `topic`. */
  function TopicCorrect(qs: seq<Question>, answers: Answers, topic: string): (n: nat)
    ensures n <= TopicCount(qs, topic)
    decreases |qs|
  {
    if |qs| == 0 then 0
    else TopicCorrect(qs[..|qs| - 1], answers, topic)
           + Bit(qs[|qs| - 1].topic == topic && IsCorrect(qs[|qs| - 1], answers))
  }

  function QuestionTopics(qs: seq<Question>): seq<string>
  {
    seq(|qs|, i requires 0 <= i < |qs| => qs[i].topic)
  }

  lemma {:induction false} TopicCountPositive(qs: seq<Question>, topic: string)
    ensures TopicCount(qs, topic) > 0 <==> topic in QuestionTopics(qs)
    decreases |qs|
  {
    if |qs| > 0 {
      var init := qs[..|qs| - 1];
      TopicCountPositive(init, topic);
      assert QuestionTopics(qs) == QuestionTopics(init) + [qs[|qs| - 1].topic];
    }
  }

  // ---------------------------------------------------------------------------
  // The topic table: `topicPerformance`, in first-appearance order

  datatype Tally = Tally(correct: nat, total: nat)

  type TopicTable = seq<(string, Tally)>

  function Topics(table: TopicTable): seq<string>
  {
    seq(|table|, i requires 0 <= i < |table| => table[i].0)
  }

  /** Where `topic` first occurs in the table, or -1. */
  function IndexOf(table: TopicTable, topic: string): (k: int)
    ensures -1 <= k < |table|
    ensures k >= 0 ==> table[k].0 == topic && forall j :: 0 <= j < k ==> table[j].0 != topic
    ensures k < 0 ==> forall j :: 0 <= j < |table| ==> table[j].0 != topic
    decreases |table|
  {
    if |table| == 0 then -1
    else
      var k := IndexOf(table[..|table| - 1], topic);
      if k >= 0 then k else if table[|table| - 1].0 == topic then |table| - 1 else -1
  }

  lemma IndexOfFound(table: TopicTable, topic: string)
    ensures IndexOf(table, topic) >= 0 <==> topic in Topics(table)
  {
    var k := IndexOf(table, topic);
    if k >= 0 {
      assert Topics(table)[k] == topic;
    }
    if topic in Topics(table) {
      var j :| 0 <= j < |table| && Topics(table)[j] == topic;
      assert table[j].0 == topic;
    }
  }

  /** The index of a topic depends only on the table's topics. */
  lemma IndexOfSameTopics(a: TopicTable, b: TopicTable, topic: string)
    requires |a| == |b| && forall j :: 0 <= j < |a| ==> a[j].0 == b[j].0
    ensures IndexOf(a, topic) == IndexOf(b, topic)
  {
    var ka, kb := IndexOf(a, topic), IndexOf(b, topic);
    if ka >= 0 {
      assert b[ka].0 == topic;
    }
    if kb >= 0 {
      assert a[kb].0 == topic;
    }
  }

  /** The tally of `topic`; `{0, 0}` for a topic not in the table. */
  function Lookup(table: TopicTable, topic: string): Tally
  {
    var k := IndexOf(table, topic);
    if k >= 0 then table[k].1 else Tally(0, 0)
  }

  /** One step of the fold over the questions: the question's topic gets one more question,
      and one more correct answer when `correct`; a new topic is added at the end. */
  function Record(table: TopicTable, topic: string, correct: bool): TopicTable
  {
    var k := IndexOf(table, topic);
    if k < 0 then table + [(topic, Tally(Bit(correct), 1))]
    else table[k := (topic, Tally(table[k].1.correct + Bit(correct), table[k].1.total + 1))]
  }

  lemma RecordTopics(table: TopicTable, topic: string, correct: bool)
    ensures Topics(Record(table, topic, correct))
            == if topic in Topics(table) then Topics(table) else Topics(table) + [topic]
  {
    IndexOfFound(table, topic);
    var r := Record(table, topic, correct);
    if topic in Topics(table) {
      assert Topics(r) == Topics(table);
    } else {
      assert Topics(r) == Topics(table) + [topic];
    }
  }

  /** Recording changes the tally of the recorded topic only. */
  lemma RecordLookup(table: TopicTable, topic: string, correct: bool, t: string)
    ensures Lookup(Record(table, topic, correct), t)
            == if t == topic then Tally(Lookup(table, t).correct + Bit(correct), Lookup(table, t).total + 1)
               else Lookup(table, t)
  {
    var k := IndexOf(table, topic);
    var r := Record(table, topic, correct);
    if k < 0 {
      assert r[..|table|] == table;
      var kt := IndexOf(table, t);
      if t != topic {
        assert IndexOf(r, t) == kt by {
          if kt >= 0 {
            assert r[kt].0 == t;
          }
        }
      }
    } else {
      IndexOfSameTopics(table, r, t);
    }
  }

  /** `topicPerformance` after the `forEach` over the questions. */
  function TallyOf(qs: seq<Question>, answers: Answers): TopicTable
    decreases |qs|
  {
    if |qs| == 0 then []
    else Record(TallyOf(qs[..|qs| - 1], answers), qs[|qs| - 1].topic, IsCorrect(qs[|qs| - 1], answers))
  }

  /** The table lists the topics of the questions in first-appearance order, each once. */
  lemma {:induction false} TallyTopics(qs: seq<Question>, answers: Answers)
    ensures Topics(TallyOf(qs, answers)) == Dedup(QuestionTopics(qs))
    decreases |qs|
  {
    if |qs| > 0 {
      var init, q := qs[..|qs| - 1], qs[|qs| - 1];
      var table := TallyOf(init, answers);
      TallyTopics(init, answers);
      RecordTopics(table, q.topic, IsCorrect(q, answers));
      var ts := QuestionTopics(qs);
      assert ts[..|ts| - 1] == QuestionTopics(init);
      assert ts[|ts| - 1] == q.topic;
      assert TallyOf(qs, answers) == Record(table, q.topic, IsCorrect(q, answers));
    }
  }

  /** Each topic's tally counts exactly its questions and its correctly answered questions. */
  lemma {:induction false} TallyLookup(qs: seq<Question>, answers: Answers, t: string)
    ensures Lookup(TallyOf(qs, answers), t) == Tally(TopicCorrect(qs, answers, t), TopicCount(qs, t))
    decreases |qs|
  {
    if |qs| > 0 {
      var init := qs[..|qs| - 1];
      TallyLookup(init, answers, t);
      RecordLookup(TallyOf(init, answers), qs[|qs| - 1].topic, IsCorrect(qs[|qs| - 1], answers), t);
    }
  }

  predicate EntriesBounded(table: TopicTable)
  {
    forall k :: 0 <= k < |table| ==> 1 <= table[k].1.total && table[k].1.correct <= table[k].1.total
  }

  /** Every entry has seen at least one question and no more correct answers than questions. */
  lemma {:induction false} TallyBounded(qs: seq<Question>, answers: Answers)
    ensures EntriesBounded(TallyOf(qs, answers))
    ensures NoDup(Topics(TallyOf(qs, answers)))
    decreases |qs|
  {
    if |qs| > 0 {
      var init := qs[..|qs| - 1];
      TallyBounded(init, answers);
      TallyTopics(qs, answers);
      DedupFacts(QuestionTopics(qs));
    }
  }

  function SumTotals(table: TopicTable): nat
    decreases |table|
  {
    if |table| == 0 then 0 else SumTotals(table[..|table| - 1]) + table[|table| - 1].1.total
  }

  function SumCorrect(table: TopicTable): nat
    decreases |table|
  {
    if |table| == 0 then 0 else SumCorrect(table[..|table| - 1]) + table[|table| - 1].1.correct
  }

  lemma {:induction false} SumsUpdate(table: TopicTable, k: nat, v: (string, Tally))
    requires k < |table|
    ensures SumTotals(table[k := v]) == SumTotals(table) - table[k].1.total + v.1.total
    ensures SumCorrect(table[k := v]) == SumCorrect(table) - table[k].1.correct + v.1.correct
    decreases |table|
  {
    var n := |table|;
    var u := table[k := v];
    if k < n - 1 {
      assert u[..n - 1] == table[..n - 1][k := v];
      SumsUpdate(table[..n - 1], k, v);
    } else {
      assert u[..n - 1] == table[..n - 1];
    }
  }

  /** Recording a question adds one to the totals and its correctness to the correct counts. */
  lemma SumsRecord(table: TopicTable, topic: string, correct: bool)
    ensures SumTotals(Record(table, topic, correct)) == SumTotals(table) + 1
    ensures SumCorrect(Record(table, topic, correct)) == SumCorrect(table) + Bit(correct)
  {
    var k := IndexOf(table, topic);
    if k < 0 {
      var r := table + [(topic, Tally(Bit(correct), 1))];
      assert r[..|r| - 1] == table;
    } else {
      SumsUpdate(table, k, (topic, Tally(table[k].1.correct + Bit(correct), table[k].1.total + 1)));
    }
  }

  /** The tallies add up to the number of questions and to the number of correct answers. */
  lemma {:induction false} TallySums(qs: seq<Question>, answers: Answers)
    ensures SumTotals(TallyOf(qs, answers)) == |qs|
    ensures SumCorrect(TallyOf(qs, answers)) == CountCorrect(qs, answers)
    decreases |qs|
  {
    if |qs| > 0 {
      var init, q := qs[..|qs| - 1], qs[|qs| - 1];
      TallySums(init, answers);
      SumsRecord(TallyOf(init, answers), q.topic, IsCorrect(q, answers));
    }
  }

  /** One more question of the list extends the tally and the count by that question. */
  lemma TallyStep(qs: seq<Question>, i: nat, answers: Answers)
    requires i < |qs|
    ensures TallyOf(qs[..i + 1], answers) == Record(TallyOf(qs[..i], answers), qs[i].topic, IsCorrect(qs[i], answers))
    ensures CountCorrect(qs[..i + 1], answers) == CountCorrect(qs[..i], answers) + Bit(IsCorrect(qs[i], answers))
  {
    assert qs[..i + 1][..i] == qs[..i];
  }

  /** The body of the `forEach` for one question's topic: a new topic is added with an empty
      tally, then its total is raised and, for a correct answer, its correct count. */
  method RecordQuestion(table: TopicTable, topic: string, isCorrect: bool) returns (r: TopicTable)
    ensures r == Record(table, topic, isCorrect)
  {
    r := table;
    var k := IndexOf(r, topic);
    if k < 0 {
      r := r + [(topic, Tally(0, 0))];
      k := |r| - 1;
    }
    var perf := r[k].1;
    r := r[k := (topic, Tally(perf.correct, perf.total + 1))];
    if isCorrect {
      var perf2 := r[k].1;
      r := r[k := (topic, Tally(perf2.correct + 1, perf2.total))];
    }
  }

  /** The `forEach` at the top of `evaluateAndAdapt`: counts correct answers and builds the
      topic table. */
  method TallyQuestions(questions: seq<Question>, userAnswers: Answers) returns (correctCount: nat, topicPerformance: TopicTable)
    ensures correctCount == CountCorrect(questions, userAnswers)
    ensures topicPerformance == TallyOf(questions, userAnswers)
  {
    correctCount := 0;
    topicPerformance := [];
    var i := 0;
    while i < |questions|
      invariant 0 <= i <= |questions|
      invariant correctCount == CountCorrect(questions[..i], userAnswers)
      invariant topicPerformance == TallyOf(questions[..i], userAnswers)
    {
      var q := questions[i];
      TallyStep(questions, i, userAnswers);
      var isCorrect := AnswerFor(userAnswers, q.id) == q.correctAnswer;
      if isCorrect {
        correctCount := correctCount + 1;
      }
      topicPerformance := RecordQuestion(topicPerformance, q.topic, isCorrect);
      i := i + 1;
    }
    assert questions[..i] == questions;
  }

  // ---------------------------------------------------------------------------
  // Classification

  /** `(correct / total) * 100 >= p`, with a zero total giving NaN, for which every comparison
      is false. */
  predicate AtLeastPercent(correct: nat, total: nat, p: nat)
  {
    total > 0 && 100 * correct >= p * total
  }

  predicate BelowPercent(correct: nat, total: nat, p: nat)
  {
    total > 0 && 100 * correct < p * total
  }

  predicate IsStrength(t: Tally)
  {
    AtLeastPercent(t.correct, t.total, 70)
  }

  /** Judged only for topics that are not strengths (`else if`). */
  predicate IsWeakness(t: Tally)
  {
    !IsStrength(t) && BelowPercent(t.correct, t.total, 50)
  }

  /** The topics whose tally satisfies `p`, in table order. */
  function TopicsWhere(table: TopicTable, p: Tally -> bool): seq<string>
    decreases |table|
  {
    if |table| == 0 then []
    else TopicsWhere(table[..|table| - 1], p) + (if p(table[|table| - 1].1) then [table[|table| - 1].0] else [])
  }

  function StrengthsOf(table: TopicTable): seq<string>
  {
    TopicsWhere(table, IsStrength)
  }

  function WeaknessesOf(table: TopicTable): seq<string>
  {
    TopicsWhere(table, IsWeakness)
  }

  /** A topic is selected exactly when some entry for it satisfies `p`; the selection holds
      no duplicates when the table has none. */
  lemma {:induction false} TopicsWhereFacts(table: TopicTable, p: Tally -> bool, t: string)
    ensures t in TopicsWhere(table, p) <==> exists k :: 0 <= k < |table| && table[k].0 == t && p(table[k].1)
    ensures NoDup(Topics(table)) ==> NoDup(TopicsWhere(table, p))
    decreases |table|
  {
    if |table| > 0 {
      var init := table[..|table| - 1];
      var last := table[|table| - 1];
      TopicsWhereFacts(init, p, t);
      TopicsWhereFacts(init, p, last.0);
      if t in TopicsWhere(table, p) && t !in TopicsWhere(init, p) {
        assert table[|table| - 1].0 == t;
      }
      if exists k :: 0 <= k < |table| && table[k].0 == t && p(table[k].1) {
        var k :| 0 <= k < |table| && table[k].0 == t && p(table[k].1);
        if k < |table| - 1 {
          assert init[k] == table[k];
        }
      }
      if NoDup(Topics(table)) {
        assert Topics(init) == Topics(table)[..|table| - 1];
        forall k | 0 <= k < |init|
          ensures init[k].0 != last.0
        {
          assert Topics(table)[k] == init[k].0 && Topics(table)[|table| - 1] == last.0;
        }
      }
    }
  }

  /** In a table without duplicate topics, a topic is selected exactly when it is in the table
      and its tally satisfies `p`. */
  lemma TopicsWhereLookup(table: TopicTable, p: Tally -> bool, t: string)
    requires NoDup(Topics(table))
    ensures t in TopicsWhere(table, p) <==> t in Topics(table) && p(Lookup(table, t))
  {
    TopicsWhereFacts(table, p, t);
    IndexOfFound(table, t);
    if t in TopicsWhere(table, p) {
      var k :| 0 <= k < |table| && table[k].0 == t && p(table[k].1);
      var i := IndexOf(table, t);
      assert Topics(table)[k] == Topics(table)[i];
    }
    if t in Topics(table) && p(Lookup(table, t)) {
      var i := IndexOf(table, t);
      assert table[i].0 == t && p(table[i].1);
    }
  }

  /** The classification of one round, stated on the questions: a topic is a strength exactly
      when it was asked and at least 70% of its questions were answered correctly, and a
      weakness exactly when it was asked and fewer than 50% were; no topic is both, topics in
      between are neither, and each list names every topic at most once. */
  lemma RoundClassification(qs: seq<Question>, answers: Answers, t: string)
    ensures t in StrengthsOf(TallyOf(qs, answers))
            <==> TopicCount(qs, t) > 0 && 100 * TopicCorrect(qs, answers, t) >= 70 * TopicCount(qs, t)
    ensures t in WeaknessesOf(TallyOf(qs, answers))
            <==> TopicCount(qs, t) > 0 && 100 * TopicCorrect(qs, answers, t) < 50 * TopicCount(qs, t)
    ensures !(t in StrengthsOf(TallyOf(qs, answers)) && t in WeaknessesOf(TallyOf(qs, answers)))
    ensures NoDup(StrengthsOf(TallyOf(qs, answers))) && NoDup(WeaknessesOf(TallyOf(qs, answers)))
  {
    var table := TallyOf(qs, answers);
    TallyBounded(qs, answers);
    TallyTopics(qs, answers);
    DedupFacts(QuestionTopics(qs));
    TopicCountPositive(qs, t);
    TallyLookup(qs, answers, t);
    IndexOfFound(table, t);
    TopicsWhereLookup(table, IsStrength, t);
    TopicsWhereLookup(table, IsWeakness, t);
    TopicsWhereFacts(table, IsStrength, t);
    TopicsWhereFacts(table, IsWeakness, t);
  }

  /** Both lists name only topics of the submitted questions. */
  lemma ClassifiedTopicsWereAsked(qs: seq<Question>, answers: Answers, t: string)
    requires t in StrengthsOf(TallyOf(qs, answers)) || t in WeaknessesOf(TallyOf(qs, answers))
    ensures t in QuestionTopics(qs)
  {
    RoundClassification(qs, answers, t);
    TopicCountPositive(qs, t);
  }

  /** The `Object.entries(...).forEach` that sorts the topics into strengths and weaknesses. */
  method ClassifyTopics(topicPerformance: TopicTable) returns (strengths: seq<string>, weaknesses: seq<string>)
    ensures strengths == StrengthsOf(topicPerformance)
    ensures weaknesses == WeaknessesOf(topicPerformance)
  {
    strengths := [];
    weaknesses := [];
    var i := 0;
    while i < |topicPerformance|
      invariant 0 <= i <= |topicPerformance|
      invariant strengths == StrengthsOf(topicPerformance[..i])
      invariant weaknesses == WeaknessesOf(topicPerformance[..i])
    {
      var (topic, perf) := topicPerformance[i];
      assert topicPerformance[..i + 1][..i] == topicPerformance[..i];
      if AtLeastPercent(perf.correct, perf.total, 70) {
        strengths := strengths + [topic];
      } else if BelowPercent(perf.correct, perf.total, 50) {
        weaknesses := weaknesses + [topic];
      }
      i := i + 1;
    }
    assert topicPerformance[..i] == topicPerformance;
  }

  // ---------------------------------------------------------------------------
  // Next tier, rounded score and encouragement

  /** The next tier, from this round's counts alone. */
  function NextTier(correct: nat, total: nat): (t: Tier)
    ensures t == Advanced <==> AtLeastPercent(correct, total, 80)
    ensures t == Intermediate <==> AtLeastPercent(correct, total, 60) && !AtLeastPercent(correct, total, 80)
    ensures t == Beginner <==> !AtLeastPercent(correct, total, 60)
  {
    if AtLeastPercent(correct, total, 80) then Advanced
    else if AtLeastPercent(correct, total, 60) then Intermediate
    else Beginner
  }

  function TierRank(t: Tier): nat
  {
    match t
    case Beginner => 0
    case Intermediate => 1
    case Advanced => 2
  }

  /** More correct answers out of the same number of questions never give a lower tier, and no
      questions at all give the lowest. */
  lemma NextTierMonotone(c1: nat, c2: nat, total: nat)
    requires c1 <= c2
    ensures TierRank(NextTier(c1, total)) <= TierRank(NextTier(c2, total))
    ensures total == 0 ==> NextTier(c1, total) == Beginner
  {
  }

  /** `Math.round((correct / total) * 100)`, rounding halves up; `None` is NaN. */
  function RoundedScore(correct: nat, total: nat): (r: Option<int>)
    ensures r.None? <==> total == 0
    ensures r.Some? ==> 2 * r.value * total <= 200 * correct + total < 2 * r.value * total + 2 * total
    ensures r.Some? && correct <= total ==> 0 <= r.value <= 100
  {
    if total == 0 then None
    else
      var q := (200 * correct + total) / (2 * total);
      RoundingBounds(correct, total, q);
      Some(q)
  }

  lemma RoundingBounds(correct: nat, total: nat, q: int)
    requires total > 0 && q == (200 * correct + total) / (2 * total)
    ensures 2 * q * total <= 200 * correct + total < 2 * q * total + 2 * total
    ensures correct <= total ==> 0 <= q <= 100
  {
    var d := 2 * total;
    var x := 200 * correct + total;
    DivBounds(x, d);
    if correct <= total {
      assert x < d * 101;
      MulCancel(d, q, 101);
      assert 0 <= x;
      MulCancel(d, -1, q);
    }
  }

  lemma DivBounds(x: int, d: int)
    requires d > 0
    ensures d * (x / d) <= x < d * (x / d) + d
  {
  }

  /** With `d * a < d * b + d`, `a <= b` for a positive `d`. */
  lemma MulCancel(d: int, a: int, b: int)
    requires d > 0 && d * a < d * b + d
    ensures a <= b
  {
    var e := a - b;
    assert d * a == d * b + d * e;
    if e >= 1 {
      MulNonNegative(d, e - 1);
      assert false;
    }
  }

  lemma MulNonNegative(x: int, y: int)
    requires x >= 0 && y >= 0
    ensures x * y >= 0
  {
  }

  datatype Band = Excellent | GoodEffort | KeepGoing

  /** The encouragement band, judged on the unrounded percentage. */
  function BandOf(correct: nat, total: nat): (b: Band)
    ensures b == Excellent <==> AtLeastPercent(correct, total, 70)
    ensures b == GoodEffort <==> AtLeastPercent(correct, total, 50) && !AtLeastPercent(correct, total, 70)
    ensures b == KeepGoing <==> !AtLeastPercent(correct, total, 50)
  {
    if AtLeastPercent(correct, total, 70) then Excellent
    else if AtLeastPercent(correct, total, 50) then GoodEffort
    else KeepGoing
  }

  function Encouragement(b: Band): string
  {
    match b
    case Excellent => "Excellent work! You're doing great! \U{1F31F}"
    case GoodEffort => "Good effort! Let's practice more together! \U{1F4AA}"
    case KeepGoing => "Don't worry! We'll learn together step by step! \U{1F3AF}"
  }

  /** Each band has its own message: the three end in different symbols. */
  lemma EncouragementDistinct(a: Band, b: Band)
    ensures Encouragement(a) == Encouragement(b) <==> a == b
  {
    if a != b {
      var x, y := Encouragement(a), Encouragement(b);
      assert x[|x| - 1] != y[|y| - 1];
    }
  }

  function EncouragementHindi(b: Band): string
  {
    match b
    case Excellent => "बहुत बढ़िया! आप बहुत अच्छा कर रहे हैं! \U{1F31F}"
    case GoodEffort => "अच्छा प्रयास! आइए और अभ्यास करें! \U{1F4AA}"
    case KeepGoing => "चिंता मत करो! हम एक साथ सीखेंगे! \U{1F3AF}"
  }
}
