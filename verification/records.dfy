/** Course records as the two form screens build them.

    A previous-semester course is a mutable dictionary: the form creates it
    with the entered fields, and submitting the form stamps three more keys
    (`semester_gpa`, `current_cgpa`, `learning_style`) into every dictionary
    of the list in place. It is modelled as the class `CourseEntry`, whose
    three late keys are `Option`s (`None` = key not present yet).
    Current-semester courses are never mutated after creation and are values. */
module Records {

  datatype Option<+T> = None | Some(value: T)

  datatype LearningStyle = Visual | Auditory | Kinesthetic

  datatype Semester = Previous | Current

  // Ranges enforced by the form widgets.
  type StudentId = i: int | 1 <= i <= 10 witness 1
  type Percent = r: real | 0.0 <= r <= 100.0
  type Hours = r: real | 0.0 <= r
  type Gpa = r: real | 0.0 <= r <= 5.0
  type Units = u: int | 1 <= u <= 6 witness 1
  type Difficulty = d: int | 1 <= d <= 5 witness 1

  /** What the user types for one previous-semester course. */
  datatype PrevInput = PrevInput(
    courseId: string, grade: Percent, studyHours: Hours,
    units: Units, difficulty: Difficulty, attendance: Percent)

  /** What the user types for one current-semester course. */
  datatype CurrInput = CurrInput(courseId: string, units: Units, difficulty: Difficulty)

  /** A previous-semester record once all its keys are present: one row of
      the previous-semester frame on the results page. */
  datatype PrevRow = PrevRow(
    userId: StudentId, semester: Semester, courseId: string,
    grade: Percent, studyHours: Hours, units: Units, difficulty: Difficulty,
    attendance: Percent, semesterGpa: Gpa, currentCgpa: Gpa,
    learningStyle: LearningStyle)

  /** A current-semester record. */
  datatype CurrRow = CurrRow(
    userId: StudentId, semester: Semester, courseId: string,
    units: Units, difficulty: Difficulty, learningStyle: LearningStyle)

  /** The row a previous-semester dictionary with all its keys reads as. */
  function Complete(userId: StudentId, semester: Semester, input: PrevInput,
                    gpa: Gpa, cgpa: Gpa, style: LearningStyle): PrevRow
  {
    PrevRow(userId, semester, input.courseId, input.grade, input.studyHours,
            input.units, input.difficulty, input.attendance, gpa, cgpa, style)
  }

  /** One previous-semester course dictionary. */
  class CourseEntry {
    var userId: StudentId
    var semester: Semester
    var courseId: string
    var grade: Percent
    var studyHours: Hours
    var units: Units
    var difficulty: Difficulty
    var attendance: Percent
    var semesterGpa: Option<Gpa>
    var currentCgpa: Option<Gpa>
    var learningStyle: Option<LearningStyle>

    /** The dictionary the previous-semester form appends for one course. */
    constructor (userId: StudentId, input: PrevInput)
      ensures this.userId == userId && semester == Previous
      ensures Entered() == input
      ensures semesterGpa == None && currentCgpa == None && learningStyle == None
    {
      this.userId := userId;
      semester := Previous;
      courseId := input.courseId;
      grade := input.grade;
      studyHours := input.studyHours;
      units := input.units;
      difficulty := input.difficulty;
      attendance := input.attendance;
      semesterGpa := None;
      currentCgpa := None;
      learningStyle := None;
    }

    /** The fields the user entered for this course. */
    function Entered(): PrevInput
      reads this
    {
      PrevInput(courseId, grade, studyHours, units, difficulty, attendance)
    }

    /** The dictionary as a frame row; `None` while a late key is missing. */
    function Row(): Option<PrevRow>
      reads this
    {
      if semesterGpa.Some? && currentCgpa.Some? && learningStyle.Some? then
        Some(Complete(userId, semester, Entered(), semesterGpa.value,
                      currentCgpa.value, learningStyle.value))
      else
        None
    }
  }

  /** The previous-semester frame the results page builds from the stored
      dictionaries: one row per dictionary, in order; `None` while some
      dictionary still lacks a late key. */
  function Frame(courses: seq<CourseEntry>): (rows: Option<seq<PrevRow>>)
    reads set c | c in courses
    ensures rows.Some? <==> forall i :: 0 <= i < |courses| ==> courses[i].Row().Some?
    ensures rows.Some? ==> |rows.value| == |courses|
    ensures rows.Some? ==> forall i :: 0 <= i < |courses| ==> Some(rows.value[i]) == courses[i].Row()
  {
    if |courses| == 0 then Some([])
    else
      match (Frame(courses[..|courses| - 1]), courses[|courses| - 1].Row())
      case (Some(front), Some(last)) => Some(front + [last])
      case _ => None
  }

  /** The previous-semester form: one fresh dictionary per course, in order. */
  method NewPreviousCourses(userId: StudentId, inputs: seq<PrevInput>)
    returns (courses: seq<CourseEntry>)
    ensures |courses| == |inputs|
    ensures forall i :: 0 <= i < |inputs| ==>
      fresh(courses[i]) && courses[i].Entered() == inputs[i] &&
      courses[i].userId == userId && courses[i].semester == Previous &&
      courses[i].semesterGpa == None && courses[i].currentCgpa == None &&
      courses[i].learningStyle == None
    ensures forall i, j :: 0 <= i < j < |courses| ==> courses[i] != courses[j]
  {
    courses := [];
    for i := 0 to |inputs|
      invariant |courses| == i
      invariant forall j :: 0 <= j < i ==>
        fresh(courses[j]) && courses[j].Entered() == inputs[j] &&
        courses[j].userId == userId && courses[j].semester == Previous &&
        courses[j].semesterGpa == None && courses[j].currentCgpa == None &&
        courses[j].learningStyle == None
      invariant forall j, k :: 0 <= j < k < i ==> courses[j] != courses[k]
    {
      var entry := new CourseEntry(userId, inputs[i]);
      courses := courses + [entry];
    }
  }

  /** Submitting the previous-semester form: every dictionary of the list is
      stamped, in place, with the same GPA, CGPA and learning style, and
      keeps everything it had. */
  method Submit(courses: seq<CourseEntry>, gpa: Gpa, cgpa: Gpa, style: LearningStyle)
    modifies set c | c in courses
    ensures forall c :: c in courses ==>
      c.Row() == Some(Complete(old(c.userId), old(c.semester), old(c.Entered()), gpa, cgpa, style))
    ensures Frame(courses).Some?
  {
    for i := 0 to |courses|
      invariant forall j :: 0 <= j < i ==>
        courses[j].Row() ==
          Some(Complete(old(courses[j].userId), old(courses[j].semester),
                        old(courses[j].Entered()), gpa, cgpa, style))
      invariant forall c :: c in courses ==>
        c.userId == old(c.userId) && c.semester == old(c.semester) &&
        c.Entered() == old(c.Entered())
    {
      var course := courses[i];
      course.semesterGpa := Some(gpa);
      course.currentCgpa := Some(cgpa);
      course.learningStyle := Some(style);
    }
    assert forall i :: 0 <= i < |courses| ==> courses[i].Row().Some?;
  }

  /** The current-semester form. Each record copies the learning style of
      the first previous-semester dictionary; `None` models the lookup of
      that dictionary failing (empty list, or key not present), which can
      only happen when at least one course is built. */
  method NewCurrentCourses(userId: StudentId, inputs: seq<CurrInput>, prevData: seq<CourseEntry>)
    returns (r: Option<seq<CurrRow>>)
    ensures r.None? <==>
      |inputs| > 0 && (|prevData| == 0 || prevData[0].learningStyle.None?)
    ensures r.Some? ==> |r.value| == |inputs|
    ensures r.Some? ==> forall i :: 0 <= i < |inputs| ==>
      r.value[i].learningStyle == prevData[0].learningStyle.value &&
      r.value[i].courseId == inputs[i].courseId &&
      r.value[i].units == inputs[i].units &&
      r.value[i].difficulty == inputs[i].difficulty &&
      r.value[i].userId == userId && r.value[i].semester == Current
  {
    var courses: seq<CurrRow> := [];
    for i := 0 to |inputs|
      invariant |courses| == i
      invariant i > 0 ==> |prevData| > 0 && prevData[0].learningStyle.Some?
      invariant forall j :: 0 <= j < i ==>
        courses[j] == CurrRow(userId, Current, inputs[j].courseId, inputs[j].units,
                              inputs[j].difficulty, prevData[0].learningStyle.value)
    {
      if |prevData| == 0 || prevData[0].learningStyle.None? {
        return None;
      }
      var style := prevData[0].learningStyle.value;
      courses := courses + [CurrRow(userId, Current, inputs[i].courseId,
                                    inputs[i].units, inputs[i].difficulty, style)];
    }
    r := Some(courses);
  }
}
