/** The features the results page derives for each current-semester course
    from the previous semester: an estimated grade penalised by 5 per point
    of difficulty above the previous mean, 3 study hours per unit, the mean
    previous attendance and the previous CGPA. */
module Features {
  import opened Records
  import opened Columns
  import opened Analyzer

  const StudyHoursPerUnit := 3
  const PenaltyPerDifficultyPoint := 5.0

  function Difficulties<R>(rows: seq<R>, difficulty: R -> Difficulty): seq<real>
  {
    seq(|rows|, i requires 0 <= i < |rows| => difficulty(rows[i]) as real)
  }

  function PrevDifficulties(prev: seq<PrevRow>): seq<real>
  {
    Difficulties(prev, (r: PrevRow) => r.difficulty)
  }

  function CurrDifficulties(curr: seq<CurrRow>): seq<real>
  {
    Difficulties(curr, (c: CurrRow) => c.difficulty)
  }

  /** A current-semester record with the derived columns attached. */
  datatype Synthesized = Synthesized(
    course: CurrRow, estimatedGrade: real, studyHours: int,
    attendance: real, currentCgpa: Gpa)

  /** The current-semester frame with its derived columns. */
  function Synthesize(prev: seq<PrevRow>, curr: seq<CurrRow>): (r: seq<Synthesized>)
    requires |prev| > 0
    ensures |r| == |curr|
    ensures forall i :: 0 <= i < |curr| ==>
      r[i].course == curr[i] && r[i].studyHours == StudyHoursPerUnit * curr[i].units
    ensures forall i :: 0 <= i < |curr| ==>
      r[i].attendance == Mean(Attendances(prev)) && r[i].currentCgpa == prev[0].currentCgpa
  {
    var avgGrade := Mean(Grades(prev));
    var avgDifficulty := Mean(PrevDifficulties(prev));
    var avgAttendance := Mean(Attendances(prev));
    var cgpa := prev[0].currentCgpa;
    seq(|curr|, i requires 0 <= i < |curr| =>
      Synthesized(curr[i],
                  avgGrade - (curr[i].difficulty as real - avgDifficulty) * PenaltyPerDifficultyPoint,
                  curr[i].units * StudyHoursPerUnit,
                  avgAttendance, cgpa))
  }

  function EstimatedGrades(r: seq<Synthesized>): seq<real>
  {
    seq(|r|, i requires 0 <= i < |r| => r[i].estimatedGrade)
  }

  /** A course as difficult as the previous mean is estimated at the mean
      previous grade, and every further point of difficulty costs exactly 5. */
  lemma EstimatedGradePenalty(prev: seq<PrevRow>, curr: seq<CurrRow>, i: int, j: int)
    requires |prev| > 0 && 0 <= i < |curr| && 0 <= j < |curr|
    ensures curr[i].difficulty as real == Mean(PrevDifficulties(prev)) ==>
      Synthesize(prev, curr)[i].estimatedGrade == Mean(Grades(prev))
    ensures Synthesize(prev, curr)[i].estimatedGrade - Synthesize(prev, curr)[j].estimatedGrade ==
      PenaltyPerDifficultyPoint * (curr[j].difficulty - curr[i].difficulty) as real
  {
  }

  /** Over the whole current semester, the mean estimated grade is the mean
      previous grade less 5 per point by which the mean difficulty rose. */
  lemma MeanEstimatedGrade(prev: seq<PrevRow>, curr: seq<CurrRow>)
    requires |prev| > 0 && |curr| > 0
    ensures Mean(EstimatedGrades(Synthesize(prev, curr))) ==
      Mean(Grades(prev)) -
      PenaltyPerDifficultyPoint * (Mean(CurrDifficulties(curr)) - Mean(PrevDifficulties(prev)))
  {
    var g, d := Mean(Grades(prev)), Mean(PrevDifficulties(prev));
    var est := EstimatedGrades(Synthesize(prev, curr));
    var ds := CurrDifficulties(curr);
    forall i | 0 <= i < |curr|
      ensures est[i] == -PenaltyPerDifficultyPoint * ds[i] + (g + PenaltyPerDifficultyPoint * d)
    {
    }
    MeanAffine(ds, est, -PenaltyPerDifficultyPoint, g + PenaltyPerDifficultyPoint * d);
  }
}
