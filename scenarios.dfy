/** Worked rounds of the adaptive assessment, computed through the model end to end. */
module Scenarios {
  import opened Options
  import opened ProgressSchema
  import opened Scoring
  import opened AdaptiveAssessment

  /** A beginner question whose correct answer is `right`. */
  function Q(id: QuestionId, topic: string, right: string): Question
  {
    Question(id, topic, Some(right), Some("beginner"))
  }

  /** The classifier's boundary cases: exactly 70% is a strength, exactly 50% is not a
      weakness, 40% is a weakness and 60% is neither. */
  lemma ClassifierBoundaries()
    ensures IsStrength(Tally(7, 10)) && !IsWeakness(Tally(7, 10))
    ensures !IsStrength(Tally(5, 10)) && !IsWeakness(Tally(5, 10))
    ensures !IsStrength(Tally(4, 10)) && IsWeakness(Tally(4, 10))
    ensures !IsStrength(Tally(6, 10)) && !IsWeakness(Tally(6, 10))
  {
  }

  /** Adding a question at the end adds its correctness to the count. */
  lemma CountSnoc(qs: seq<Question>, q: Question, answers: Answers)
    ensures CountCorrect(qs + [q], answers) == CountCorrect(qs, answers) + Bit(IsCorrect(q, answers))
  {
    assert (qs + [q])[..|qs|] == qs;
  }

  /** Recording into a one-topic table, for that topic. */
  lemma RecordOnly(topic: string, c: nat, n: nat, correct: bool)
    ensures Record([(topic, Tally(c, n))], topic, correct) == [(topic, Tally(c + Bit(correct), n + 1))]
  {
  }

  /** Recording a second topic into a one-topic table appends it. */
  lemma RecordSecondNew(first: (string, Tally), topic: string, correct: bool)
    requires first.0 != topic
    ensures Record([first], topic, correct) == [first, (topic, Tally(Bit(correct), 1))]
  {
  }

  /** Recording the second topic of a two-topic table. */
  lemma RecordSecond(first: (string, Tally), topic: string, c: nat, n: nat, correct: bool)
    requires first.0 != topic
    ensures Record([first, (topic, Tally(c, n))], topic, correct) == [first, (topic, Tally(c + Bit(correct), n + 1))]
  {
    var table := [first, (topic, Tally(c, n))];
    assert table[..1] == [first];
  }

  lemma SelectSnoc(table: TopicTable, entry: (string, Tally), p: Tally -> bool)
    ensures TopicsWhere(table + [entry], p) == TopicsWhere(table, p) + (if p(entry.1) then [entry.0] else [])
  {
    assert (table + [entry])[..|table|] == table;
  }

  /** Questions on one topic only leave a one-entry table holding their count. */
  lemma {:induction false} OneTopic(qs: seq<Question>, answers: Answers, t: string)
    requires |qs| > 0 && forall i :: 0 <= i < |qs| ==> qs[i].topic == t
    ensures TallyOf(qs, answers) == [(t, Tally(CountCorrect(qs, answers), |qs|))]
    decreases |qs|
  {
    var init := qs[..|qs| - 1];
    if |init| > 0 {
      OneTopic(init, answers, t);
      RecordOnly(t, CountCorrect(init, answers), |init|, IsCorrect(qs[|qs| - 1], answers));
    }
  }

  /** A block of questions on one topic followed by a block on another leaves one entry per
      block, in that order. */
  lemma {:induction false} TwoTopics(xs: seq<Question>, ys: seq<Question>, answers: Answers, a: string, b: string)
    requires |xs| > 0 && |ys| > 0 && a != b
    requires forall i :: 0 <= i < |xs| ==> xs[i].topic == a
    requires forall i :: 0 <= i < |ys| ==> ys[i].topic == b
    ensures TallyOf(xs + ys, answers)
            == [(a, Tally(CountCorrect(xs, answers), |xs|)), (b, Tally(CountCorrect(ys, answers), |ys|))]
    ensures CountCorrect(xs + ys, answers) == CountCorrect(xs, answers) + CountCorrect(ys, answers)
    decreases |ys|
  {
    var init, q := ys[..|ys| - 1], ys[|ys| - 1];
    assert (xs + ys)[..|xs + ys| - 1] == xs + init;
    assert (xs + ys)[|xs + ys| - 1] == q;
    var first := (a, Tally(CountCorrect(xs, answers), |xs|));
    if |init| == 0 {
      assert xs + init == xs;
      OneTopic(xs, answers, a);
      RecordSecondNew(first, b, IsCorrect(q, answers));
    } else {
      TwoTopics(xs, init, answers, a, b);
      RecordSecond(first, b, CountCorrect(init, answers), |init|, IsCorrect(q, answers));
    }
  }

  /** Five questions on one topic with the fifth answered wrongly: 80%, four correct, one
      topic with a 4/5 tally, a strength and no weakness, and the advanced tier. */
  lemma OneTopicRound(t: string, right: string, wrong: string)
    requires right != wrong
    ensures var qs := [Q(1, t, right), Q(2, t, right), Q(3, t, right), Q(4, t, right), Q(5, t, right)];
            var answers := map[1 := right, 2 := right, 3 := right, 4 := right, 5 := wrong];
            var e := Summary(qs, answers);
            e.score == Some(80) && e.correctAnswers == 4 && e.totalQuestions == 5
            && e.topicBreakdown == [(t, Tally(4, 5))]
            && e.strengths == [t] && e.weaknesses == []
            && e.currentLevel == Advanced
  {
    var qs := [Q(1, t, right), Q(2, t, right), Q(3, t, right), Q(4, t, right), Q(5, t, right)];
    var answers := map[1 := right, 2 := right, 3 := right, 4 := right, 5 := wrong];
    var p1 := [Q(1, t, right)];
    CountSnoc(p1, Q(2, t, right), answers);
    var p2 := p1 + [Q(2, t, right)];
    CountSnoc(p2, Q(3, t, right), answers);
    var p3 := p2 + [Q(3, t, right)];
    CountSnoc(p3, Q(4, t, right), answers);
    var p4 := p3 + [Q(4, t, right)];
    CountSnoc(p4, Q(5, t, right), answers);
    assert p4 + [Q(5, t, right)] == qs;
    OneTopic(qs, answers, t);
    SelectSnoc([], (t, Tally(4, 5)), IsStrength);
    SelectSnoc([], (t, Tally(4, 5)), IsWeakness);
  }

  /** The tally and the count of three questions on topic `a` with one correct and two on
      topic `b` both correct. */
  lemma TwoTopicTally(a: string, b: string, right: string, wrong: string)
    requires a != b && right != wrong
    ensures var qs := [Q(1, a, right), Q(2, a, right), Q(3, a, right), Q(4, b, right), Q(5, b, right)];
            var answers := map[1 := right, 2 := wrong, 3 := wrong, 4 := right, 5 := right];
            TallyOf(qs, answers) == [(a, Tally(1, 3)), (b, Tally(2, 2))] && CountCorrect(qs, answers) == 3
  {
    var answers := map[1 := right, 2 := wrong, 3 := wrong, 4 := right, 5 := right];
    var xs, ys := [Q(1, a, right), Q(2, a, right), Q(3, a, right)], [Q(4, b, right), Q(5, b, right)];
    TwoTopics(xs, ys, answers, a, b);
    CountSnoc([Q(1, a, right)], Q(2, a, right), answers);
    CountSnoc([Q(1, a, right), Q(2, a, right)], Q(3, a, right), answers);
    assert [Q(1, a, right)] + [Q(2, a, right)] + [Q(3, a, right)] == xs;
    CountSnoc([Q(4, b, right)], Q(5, b, right), answers);
    assert [Q(4, b, right)] + [Q(5, b, right)] == ys;
    assert xs + ys == [Q(1, a, right), Q(2, a, right), Q(3, a, right), Q(4, b, right), Q(5, b, right)];
  }

  /** Three questions on topic `a` with one correct and two on topic `b` both correct: 60%,
      `b` a strength, `a` a weakness, and the intermediate tier. */
  lemma TwoTopicRound(a: string, b: string, right: string, wrong: string)
    requires a != b && right != wrong
    ensures var qs := [Q(1, a, right), Q(2, a, right), Q(3, a, right), Q(4, b, right), Q(5, b, right)];
            var answers := map[1 := right, 2 := wrong, 3 := wrong, 4 := right, 5 := right];
            var e := Summary(qs, answers);
            e.score == Some(60) && e.correctAnswers == 3
            && e.topicBreakdown == [(a, Tally(1, 3)), (b, Tally(2, 2))]
            && e.strengths == [b] && e.weaknesses == [a]
            && e.currentLevel == Intermediate
  {
    TwoTopicTally(a, b, right, wrong);
    var first := [(a, Tally(1, 3))];
    SelectSnoc([], (a, Tally(1, 3)), IsStrength);
    SelectSnoc([], (a, Tally(1, 3)), IsWeakness);
    SelectSnoc(first, (b, Tally(2, 2)), IsStrength);
    SelectSnoc(first, (b, Tally(2, 2)), IsWeakness);
    assert first + [(b, Tally(2, 2))] == [(a, Tally(1, 3)), (b, Tally(2, 2))];
  }

  /** A round with no questions: no score, the beginner tier and the lowest encouragement band. */
  lemma EmptyRound(answers: Answers)
    ensures var e := Summary([], answers);
            e.score == None && e.correctAnswers == 0 && e.totalQuestions == 0
            && e.topicBreakdown == [] && e.strengths == [] && e.weaknesses == []
            && e.currentLevel == Beginner && e.encouragement == Encouragement(KeepGoing)
            && DifficultyText([]) == "beginner"
  {
  }
}
