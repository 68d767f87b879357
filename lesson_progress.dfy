/** Course progress: marking a lesson complete, the completion ratio and the daily study streak,
    over the course-progress record the lesson routes read and write. */
module LessonProgress {
  import opened Options

  /** Milliseconds since the epoch, as `Date.now()` returns. */
  type Timestamp = int
  type UserId = string
  type CourseId = string
  type LessonId = string

  const MsPerDay := 86400000

  /** The calendar day of a timestamp (UTC days; `toDateString` uses the local zone). */
  function DayOf(t: Timestamp): int
  {
    t / MsPerDay
  }

  /** `new Date(Date.now() - 86400000).toDateString()` names the day before today. */
  lemma YesterdayIsPreviousDay(now: Timestamp)
    ensures DayOf(now - MsPerDay) == DayOf(now) - 1
  {
  }

  datatype CompletedLesson = CompletedLesson(lessonId: LessonId, quizScore: Option<int>)

  /** `(completed / totalLessons) * 100`: a zero lesson count gives `Infinity`, or `NaN` with
      nothing completed. */
  datatype Ratio = Finite(percent: real) | Infinite | NotANumber

  datatype CourseProgress = CourseProgress(
    userId: UserId,
    courseId: CourseId,
    completedLessons: seq<CompletedLesson>,
    overallProgress: Option<Ratio>,
    studyStreak: nat,
    lastAccessed: Option<Timestamp>)

  /** `new Progress({ userId, courseId })`: nothing completed, no ratio, never accessed. */
  function Fresh(userId: UserId, courseId: CourseId): (p: CourseProgress)
    ensures p.userId == userId && p.courseId == courseId
    ensures p.completedLessons == [] && p.overallProgress == None && p.studyStreak == 0 && p.lastAccessed == None
  {
    CourseProgress(userId, courseId, [], None, 0, None)
  }

  function Percentage(completed: nat, totalLessons: nat): (r: Ratio)
    ensures r.Finite? <==> totalLessons > 0
    ensures r.Finite? ==> r.percent * (totalLessons as real) == 100.0 * (completed as real)
    ensures r.Finite? && completed <= totalLessons ==> 0.0 <= r.percent <= 100.0
    ensures r.Infinite? <==> totalLessons == 0 && completed > 0
  {
    if totalLessons == 0 then (if completed == 0 then NotANumber else Infinite)
    else Finite(100.0 * (completed as real) / (totalLessons as real))
  }

  predicate IsCompleted(lessons: seq<CompletedLesson>, lessonId: LessonId)
  {
    exists k :: 0 <= k < |lessons| && lessons[k].lessonId == lessonId
  }

  /** No lesson appears twice. */
  predicate DistinctLessons(lessons: seq<CompletedLesson>)
  {
    forall i, j :: 0 <= i < j < |lessons| ==> lessons[i].lessonId != lessons[j].lessonId
  }

  /** The streak rule: unchanged on the same day as the last access, one more on the day after,
      and 1 otherwise, including when there has been no access yet. */
  function NextStreak(streak: nat, lastAccessed: Option<Timestamp>, now: Timestamp): (s: nat)
    ensures lastAccessed.Some? && DayOf(lastAccessed.value) == DayOf(now) ==> s == streak
    ensures lastAccessed.Some? && DayOf(lastAccessed.value) == DayOf(now) - 1 ==> s == streak + 1
    ensures lastAccessed.None? || (DayOf(lastAccessed.value) != DayOf(now) && DayOf(lastAccessed.value) != DayOf(now) - 1) ==> s == 1
  {
    if lastAccessed.Some? && DayOf(lastAccessed.value) == DayOf(now) then streak
    else if lastAccessed.Some? && DayOf(lastAccessed.value) == DayOf(now - MsPerDay) then streak + 1
    else 1
  }

  /** The record after `/lesson/:lessonId/complete` with the course's lesson count. */
  function Completed(p: CourseProgress, lessonId: LessonId, quizScore: Option<int>, totalLessons: nat, now: Timestamp): CourseProgress
  {
    if IsCompleted(p.completedLessons, lessonId) then p
    else
      var lessons := p.completedLessons + [CompletedLesson(lessonId, quizScore)];
      p.(completedLessons := lessons,
         overallProgress := Some(Percentage(|lessons|, totalLessons)),
         studyStreak := NextStreak(p.studyStreak, p.lastAccessed, now),
         lastAccessed := Some(now))
  }

  /** What every record the routes produce satisfies: each lesson once, an access time exactly
      when something was completed, then a streak of at least one day and never more days than
      completed lessons. */
  predicate WellFormed(p: CourseProgress)
  {
    DistinctLessons(p.completedLessons)
    && (p.lastAccessed.Some? <==> |p.completedLessons| > 0)
    && (p.lastAccessed.Some? ==> 1 <= p.studyStreak)
    && p.studyStreak <= |p.completedLessons|
  }

  lemma FreshWellFormed(userId: UserId, courseId: CourseId)
    ensures WellFormed(Fresh(userId, courseId))
  {
  }

  /** Completing a lesson already completed changes nothing; otherwise exactly that lesson is
      appended with its quiz score, the ratio is recomputed from the new count, the streak follows
      the streak rule and the access time becomes now. */
  lemma CompletedRules(p: CourseProgress, lessonId: LessonId, quizScore: Option<int>, totalLessons: nat, now: Timestamp)
    ensures IsCompleted(p.completedLessons, lessonId) ==> Completed(p, lessonId, quizScore, totalLessons, now) == p
    ensures !IsCompleted(p.completedLessons, lessonId) ==>
              var r := Completed(p, lessonId, quizScore, totalLessons, now);
              && r.completedLessons == p.completedLessons + [CompletedLesson(lessonId, quizScore)]
              && r.overallProgress == Some(Percentage(|p.completedLessons| + 1, totalLessons))
              && r.studyStreak == NextStreak(p.studyStreak, p.lastAccessed, now)
              && r.lastAccessed == Some(now)
              && r.userId == p.userId && r.courseId == p.courseId
    ensures IsCompleted(Completed(p, lessonId, quizScore, totalLessons, now).completedLessons, lessonId)
  {
    if !IsCompleted(p.completedLessons, lessonId) {
      var lessons := p.completedLessons + [CompletedLesson(lessonId, quizScore)];
      assert lessons[|p.completedLessons|].lessonId == lessonId;
    }
  }

  /** Marking a lesson complete twice is the same as marking it once, whatever the second
      request carries. */
  lemma CompleteIdempotent(p: CourseProgress, lessonId: LessonId, q1: Option<int>, t1: nat, now1: Timestamp,
                           q2: Option<int>, t2: nat, now2: Timestamp)
    ensures var once := Completed(p, lessonId, q1, t1, now1);
            Completed(once, lessonId, q2, t2, now2) == once
  {
    CompletedRules(p, lessonId, q1, t1, now1);
  }

  /** Completion keeps a record well formed. */
  lemma {:induction false} CompletedWellFormed(p: CourseProgress, lessonId: LessonId, quizScore: Option<int>, totalLessons: nat, now: Timestamp)
    requires WellFormed(p)
    ensures WellFormed(Completed(p, lessonId, quizScore, totalLessons, now))
  {
    if !IsCompleted(p.completedLessons, lessonId) {
      var lessons := p.completedLessons + [CompletedLesson(lessonId, quizScore)];
      forall i, j | 0 <= i < j < |lessons|
        ensures lessons[i].lessonId != lessons[j].lessonId
      {
        if j == |p.completedLessons| {
          assert p.completedLessons[i].lessonId != lessonId;
        }
      }
    }
  }

  /** On consecutive days the streak counts the days, and a gap starts it again at one. */
  lemma StreakOverDays(p: CourseProgress, a: LessonId, b: LessonId, t1: nat, t2: nat, now1: Timestamp, now2: Timestamp)
    requires WellFormed(p) && a != b
    requires !IsCompleted(p.completedLessons, a) && !IsCompleted(p.completedLessons, b)
    ensures var r1 := Completed(p, a, None, t1, now1);
            var r2 := Completed(r1, b, None, t2, now2);
            && (DayOf(now2) == DayOf(now1) ==> r2.studyStreak == r1.studyStreak)
            && (DayOf(now2) == DayOf(now1) + 1 ==> r2.studyStreak == r1.studyStreak + 1)
            && (DayOf(now2) > DayOf(now1) + 1 ==> r2.studyStreak == 1)
  {
    CompletedRules(p, a, None, t1, now1);
    var r1 := Completed(p, a, None, t1, now1);
    assert !IsCompleted(r1.completedLessons, b) by {
      forall k | 0 <= k < |r1.completedLessons|
        ensures r1.completedLessons[k].lessonId != b
      {
        if k < |p.completedLessons| {
          assert r1.completedLessons[k] == p.completedLessons[k];
        }
      }
    }
  }

  /** `.some(l => l.lessonId.toString() === lessonId)` */
  method AlreadyCompleted(lessons: seq<CompletedLesson>, lessonId: LessonId) returns (found: bool)
    ensures found == IsCompleted(lessons, lessonId)
  {
    found := false;
    var i := 0;
    while i < |lessons| && !found
      invariant 0 <= i <= |lessons|
      invariant found ==> IsCompleted(lessons, lessonId)
      invariant !found ==> forall k :: 0 <= k < i ==> lessons[k].lessonId != lessonId
    {
      if lessons[i].lessonId == lessonId {
        found := true;
      }
      i := i + 1;
    }
  }

  /** The course-progress collection, one record per learner and course. */
  class CourseProgressStore {
    var records: map<(UserId, CourseId), CourseProgress>

    ghost predicate Consistent()
      reads this
    {
      forall key :: key in records ==>
        records[key].userId == key.0 && records[key].courseId == key.1 && WellFormed(records[key])
    }

    constructor()
      ensures records == map[] && Consistent()
    {
      records := map[];
    }

    /** `GET /course/:courseId`: the stored record, or a fresh one that is saved first. */
    method GetCourseProgress(userId: UserId, courseId: CourseId) returns (progress: CourseProgress)
      requires Consistent()
      modifies this
      ensures Consistent()
      ensures (userId, courseId) in old(records) ==> progress == old(records)[(userId, courseId)] && records == old(records)
      ensures (userId, courseId) !in old(records) ==>
                progress == Fresh(userId, courseId) && records == old(records)[(userId, courseId) := progress]
    {
      var key := (userId, courseId);
      if key in records {
        progress := records[key];
      } else {
        progress := Fresh(userId, courseId);
        FreshWellFormed(userId, courseId);
        records := records[key := progress];
      }
    }

    /** `POST /lesson/:lessonId/complete` with the course's lesson count: the record (stored or
        fresh) is updated by the completion rule and saved. */
    method CompleteLesson(userId: UserId, courseId: CourseId, lessonId: LessonId, quizScore: Option<int>,
                          totalLessons: nat, now: Timestamp) returns (progress: CourseProgress)
      requires Consistent()
      modifies this
      ensures Consistent()
      ensures var base := if (userId, courseId) in old(records) then old(records)[(userId, courseId)] else Fresh(userId, courseId);
              progress == Completed(base, lessonId, quizScore, totalLessons, now)
              && records == old(records)[(userId, courseId) := progress]
    {
      var key := (userId, courseId);
      if key in records {
        progress := records[key];
      } else {
        progress := Fresh(userId, courseId);
        FreshWellFormed(userId, courseId);
      }
      ghost var base := progress;
      var alreadyCompleted := AlreadyCompleted(progress.completedLessons, lessonId);
      if !alreadyCompleted {
        var lessons := progress.completedLessons + [CompletedLesson(lessonId, quizScore)];
        var overall := Percentage(|lessons|, totalLessons);
        var today := DayOf(now);
        var streak := progress.studyStreak;
        if progress.lastAccessed.None? || DayOf(progress.lastAccessed.value) != today {
          if progress.lastAccessed.Some? && DayOf(progress.lastAccessed.value) == DayOf(now - MsPerDay) {
            streak := streak + 1;
          } else {
            streak := 1;
          }
        }
        progress := progress.(completedLessons := lessons, overallProgress := Some(overall),
                              studyStreak := streak, lastAccessed := Some(now));
      }
      CompletedWellFormed(base, lessonId, quizScore, totalLessons, now);
      records := records[key := progress];
    }
  }
}
