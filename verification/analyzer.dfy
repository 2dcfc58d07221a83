/** The analysis of the previous semester on the results page: column
    means, the weakest course, the high-difficulty courses, and the three
    possible causes of a low GPA. */
module Analyzer {
  import opened Records
  import opened Columns

  const HighDifficultyFrom := 3
  const LowStudyHoursBelow := 8.0
  const LowAttendanceBelow := 85.0
  const WeakGradeBelow := 70.0

  function Grades(prev: seq<PrevRow>): seq<real>
  {
    seq(|prev|, i requires 0 <= i < |prev| => prev[i].grade)
  }

  function StudyHours(prev: seq<PrevRow>): seq<real>
  {
    seq(|prev|, i requires 0 <= i < |prev| => prev[i].studyHours)
  }

  function Attendances(prev: seq<PrevRow>): seq<real>
  {
    seq(|prev|, i requires 0 <= i < |prev| => prev[i].attendance)
  }

  function CourseIds<R>(rows: seq<R>, id: R -> string): seq<string>
  {
    seq(|rows|, i requires 0 <= i < |rows| => id(rows[i]))
  }

  /** The lowest previous grade. */
  function WeakGrade(prev: seq<PrevRow>): real
    requires |prev| > 0
  {
    Min(Grades(prev))
  }

  /** The mask of the records holding the lowest grade. */
  function WeakestMask(prev: seq<PrevRow>): seq<bool>
    requires |prev| > 0
  {
    seq(|prev|, i requires 0 <= i < |prev| => prev[i].grade == WeakGrade(prev))
  }

  lemma WeakestMaskHit(prev: seq<PrevRow>)
    requires |prev| > 0
    ensures Count(WeakestMask(prev)) > 0
  {
    var k :| 0 <= k < |prev| && Grades(prev)[k] == WeakGrade(prev);
    WhereKeeps(prev, WeakestMask(prev), k);
  }

  /** The course of the first selected record holding the lowest grade. */
  function WeakCourse(prev: seq<PrevRow>): string
    requires |prev| > 0
  {
    WeakestMaskHit(prev);
    Where(prev, WeakestMask(prev))[0].courseId
  }

  /** The mask of the records of difficulty 3 or more. */
  function HardMask(prev: seq<PrevRow>): seq<bool>
  {
    seq(|prev|, i requires 0 <= i < |prev| => prev[i].difficulty >= HighDifficultyFrom)
  }

  /** The courses of the records of difficulty 3 or more. */
  function HighDifficulty(prev: seq<PrevRow>): seq<string>
  {
    CourseIds(Where(prev, HardMask(prev)), (r: PrevRow) => r.courseId)
  }

  /** Where a high-difficulty record's course stands in the list: the number
      of high-difficulty records before it. */
  function HardRank(prev: seq<PrevRow>, i: int): nat
    requires 0 <= i <= |prev|
  {
    Count(HardMask(prev)[..i])
  }

  datatype Analysis = Analysis(
    avgGrade: real, avgHours: real, avgAttendance: real,
    weakCourse: string, weakGrade: real, highDifficulty: seq<string>)

  /** The statistics of the previous-semester frame. */
  function Analyze(prev: seq<PrevRow>): (a: Analysis)
    requires |prev| > 0
    ensures 0.0 <= a.avgGrade <= 100.0 && 0.0 <= a.avgAttendance <= 100.0 && 0.0 <= a.avgHours
    ensures a.weakGrade <= a.avgGrade
    ensures forall i :: 0 <= i < |prev| ==> a.weakGrade <= prev[i].grade
    ensures exists i :: 0 <= i < |prev| && prev[i].grade == a.weakGrade && prev[i].courseId == a.weakCourse
    ensures |a.highDifficulty| <= |prev|
  {
    MeansInRange(prev);
    WeakCourseIsFirstMinimum(prev);
    Analysis(Mean(Grades(prev)), Mean(StudyHours(prev)), Mean(Attendances(prev)),
             WeakCourse(prev), WeakGrade(prev), HighDifficulty(prev))
  }

  lemma MeansInRange(prev: seq<PrevRow>)
    requires |prev| > 0
    ensures WeakGrade(prev) <= Mean(Grades(prev)) <= 100.0
    ensures 0.0 <= Mean(Attendances(prev)) <= 100.0
    ensures 0.0 <= Mean(StudyHours(prev))
    ensures forall i :: 0 <= i < |prev| ==> WeakGrade(prev) <= prev[i].grade
  {
    var hours := StudyHours(prev);
    forall i | 0 <= i < |prev|
      ensures 0.0 <= hours[i] <= Sum(hours)
    {
      SumAtLeastEach(hours, i);
    }
    MeanBounds(hours, 0.0, Sum(hours));
    MeanBounds(Grades(prev), WeakGrade(prev), 100.0);
    MeanBounds(Attendances(prev), 0.0, 100.0);
    forall i | 0 <= i < |prev|
      ensures WeakGrade(prev) <= prev[i].grade
    {
      assert Grades(prev)[i] == prev[i].grade;
    }
  }

  /** The weakest course is that of the first record holding the lowest grade. */
  lemma WeakCourseIsFirstMinimum(prev: seq<PrevRow>)
    requires |prev| > 0
    ensures exists k :: (0 <= k < |prev| && prev[k].grade == WeakGrade(prev) &&
                         prev[k].courseId == WeakCourse(prev) &&
                         forall j :: 0 <= j < k ==> prev[j].grade > WeakGrade(prev))
  {
    var mask := WeakestMask(prev);
    WeakestMaskHit(prev);
    WhereOnlyKept(prev, mask, 0);
    var k :| 0 <= k < |prev| && mask[k] && Count(mask[..k]) == 0 && prev[k] == Where(prev, mask)[0];
    forall j | 0 <= j < k
      ensures prev[j].grade > WeakGrade(prev)
    {
      if mask[j] {
        CountGrows(mask, j, k);
      }
      assert Grades(prev)[j] == prev[j].grade;
    }
  }

  /** The high-difficulty list holds exactly the courses of the records of
      difficulty 3 or more, in input order. */
  lemma HighDifficultyInOrder(prev: seq<PrevRow>)
    ensures |HighDifficulty(prev)| <= |prev|
    ensures forall i :: 0 <= i < |prev| && prev[i].difficulty >= 3 ==>
      HardRank(prev, i) < |HighDifficulty(prev)| &&
      HighDifficulty(prev)[HardRank(prev, i)] == prev[i].courseId
    ensures forall i, j :: 0 <= i < j < |prev| && prev[i].difficulty >= 3 ==>
      HardRank(prev, i) < HardRank(prev, j)
    ensures forall k :: 0 <= k < |HighDifficulty(prev)| ==> FromHardRecord(prev, k)
  {
    forall i | 0 <= i < |prev| && prev[i].difficulty >= 3
      ensures HardRank(prev, i) < |HighDifficulty(prev)|
      ensures HighDifficulty(prev)[HardRank(prev, i)] == prev[i].courseId
    {
      HardPlaced(prev, i);
    }
    forall i, j | 0 <= i < j < |prev| && prev[i].difficulty >= 3
      ensures HardRank(prev, i) < HardRank(prev, j)
    {
      CountGrows(HardMask(prev), i, j);
    }
    HardFrom(prev);
  }

  lemma HardPlaced(prev: seq<PrevRow>, i: int)
    requires 0 <= i < |prev| && prev[i].difficulty >= 3
    ensures HardRank(prev, i) < |HighDifficulty(prev)|
    ensures HighDifficulty(prev)[HardRank(prev, i)] == prev[i].courseId
  {
    WhereKeeps(prev, HardMask(prev), i);
  }

  /** Entry `k` of the list is the course of a record of difficulty 3 or
      more with `k` such records before it. */
  ghost predicate FromHardRecord(prev: seq<PrevRow>, k: int)
    requires 0 <= k < |HighDifficulty(prev)|
  {
    exists i :: (0 <= i < |prev| && prev[i].difficulty >= 3 &&
                 HardRank(prev, i) == k && prev[i].courseId == HighDifficulty(prev)[k])
  }

  lemma HardFrom(prev: seq<PrevRow>)
    ensures forall k :: 0 <= k < |HighDifficulty(prev)| ==> FromHardRecord(prev, k)
  {
    var mask := HardMask(prev);
    forall k | 0 <= k < |HighDifficulty(prev)|
      ensures FromHardRecord(prev, k)
    {
      WhereOnlyKept(prev, mask, k);
      var i :| 0 <= i < |prev| && mask[i] && Count(mask[..i]) == k && prev[i] == Where(prev, mask)[k];
      assert prev[i].courseId == HighDifficulty(prev)[k];
    }
  }

  datatype Causes = Causes(lowStudyHours: bool, lowAttendance: bool, weakPerformance: bool)

  /** The three possible causes the page reports, with fixed thresholds. */
  function CauseFlags(a: Analysis): Causes
  {
    Causes(a.avgHours < LowStudyHoursBelow,
           a.avgAttendance < LowAttendanceBelow,
           a.weakGrade < WeakGradeBelow)
  }

  /** The causes in terms of the records: total study hours below 8 per
      course, total attendance below 85 per course, some grade below 70. */
  lemma CauseFlagsFromRecords(prev: seq<PrevRow>)
    requires |prev| > 0
    ensures CauseFlags(Analyze(prev)).lowStudyHours <==> Sum(StudyHours(prev)) < 8.0 * |prev| as real
    ensures CauseFlags(Analyze(prev)).lowAttendance <==> Sum(Attendances(prev)) < 85.0 * |prev| as real
    ensures CauseFlags(Analyze(prev)).weakPerformance <==> exists i :: 0 <= i < |prev| && prev[i].grade < 70.0
  {
    var n := |prev| as real;
    var a := Analyze(prev);
    MeanBelow(StudyHours(prev), 8.0);
    MeanBelow(Attendances(prev), 85.0);
    if a.weakGrade < 70.0 {
      var k :| 0 <= k < |prev| && Grades(prev)[k] == WeakGrade(prev);
    }
  }

  lemma MeanBelow(xs: seq<real>, t: real)
    requires |xs| > 0
    ensures Mean(xs) < t <==> Sum(xs) < t * |xs| as real
  {
  }
}
