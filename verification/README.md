# OptiGrade, modelled in Dafny

OptiGrade is a three-screen Streamlit app for one student. It works as follows:

- Screen 1 collects five previous-semester courses: grade, weekly study hours, units, difficulty and attendance. It also collects the semester GPA, the current CGPA and a learning style. Submitting the form stamps these last three into every course dictionary.
- Screen 2 collects five current-semester courses: units and difficulty. Each one copies the learning style of the first previous course.
- The results page does four things:
  - It analyses the previous semester: mean grade, hours and attendance; the weakest course; the courses of difficulty 3 or more; and three possible causes of a low GPA.
  - It derives features for the current courses.
  - It shares 40 weekly study hours among the current courses in proportion to units × difficulty.
  - It builds a recommendation prompt that lists the causes and the current courses.

The project models that core in six modules:

- `Records`: the course dictionaries.
  - A previous-semester dictionary is a class, `CourseEntry`. The submit loop mutates it in place.
  - Its three keys that are added late are `Option`s: `None` means the key is not there yet.
  - Current-semester records are values.
  - The widget ranges (units 1–6, difficulty 1–5, percentages 0–100, GPA 0–5, student id 1–10) are subset types.
- `Columns`: the whole-column operations of the results page. These are sum, mean, minimum and boolean-mask selection (`Where`), with the lemmas that say where selected rows land.
- `Analyzer`: the previous-semester analysis and the three cause flags, with their strict thresholds 8 hours, 85 % and 70.
- `Features`: the derived columns of the current semester. The estimated grade is the mean grade less 5 per point of difficulty above the previous mean difficulty. Study hours are 3 per unit, attendance is the mean attendance, and CGPA is that of the first previous record.
- `Allocator`: the weekly study plan.
- `Prompt`: the two computed pieces of the prompt. These are the cause phrase and the course list, both joined with ", ".

Numbers are exact reals, or integers where the form yields integers.

The cause phrase keeps empty slots: a cause that does not hold leaves an empty slot between separators, so with no cause the phrase is ", , " (`Prompt.NoCausesLeaveSeparators`).

As written, the results page stops with an uncaught KeyError at optigrade_app.py:127, before the analysis, the study plan and the prompt are reached (see "## Left out"). `Analyzer`, `Allocator` and `Prompt` model what the page computes past that line.

## Model

| member | source | states |
|---|---|---|
| Records.CourseEntry.constructor | optigrade_app.py:53-62 | a new previous-course dictionary holds the entered fields, user id and semester "Previous", and none of the three late keys |
| Records.NewPreviousCourses | optigrade_app.py:44-62 | the form builds one fresh, distinct dictionary per entered course, in order, each holding that course's fields, user id and semester "Previous", and none of the three late keys |
| Records.Submit | optigrade_app.py:69-74 | after submitting, every dictionary of the list carries the same GPA, CGPA and learning style, and keeps its user id, semester and entered fields; the stored list then reads as a complete frame |
| Records.Frame | optigrade_app.py:109 | the previous-semester frame exists exactly when every stored dictionary has all its keys, and then holds one row per dictionary, in order, equal to that dictionary's row |
| Records.NewCurrentCourses | optigrade_app.py:84-97 | each current record copies its entered id, units and difficulty, user id and semester "Current", and the learning style of the first previous dictionary; the build fails exactly when some course is built while that dictionary or its key is missing |
| Columns.Min | optigrade_app.py:136 | the minimum of a non-empty column is one of its values and is at most every value |
| Columns.Where | optigrade_app.py:135 | selecting by a mask yields as many rows as the mask has true entries |
| Columns.WhereKeeps | optigrade_app.py:137 | a selected row lands at the position given by the number of selected rows before it |
| Columns.WhereOnlyKept | optigrade_app.py:137 | every row of a selection is a selected input row, at that position |
| Columns.MeanAffine | optigrade_app.py:123 | the mean of a · x + b over a column is a · mean + b |
| Analyzer.Analyze | optigrade_app.py:132-137 | mean grade and attendance lie in [0, 100] and mean hours are non-negative; the weakest grade is at most the mean grade and at most every grade; some record holds the weakest grade and the weakest course; the high-difficulty list is no longer than the records |
| Analyzer.WeakCourseIsFirstMinimum | optigrade_app.py:135-136 | the weakest course is that of the first record holding the lowest grade: every record before it has a higher grade |
| Analyzer.HighDifficultyInOrder | optigrade_app.py:137 | every record of difficulty 3 or more contributes its course at its rank among such records, ranks increase with input order, and every entry of the list comes from such a record at that rank |
| Analyzer.CauseFlagsFromRecords | optigrade_app.py:146-151 | low study hours holds iff total hours are below 8 per course; low attendance iff total attendance is below 85 per course; weak performance iff some grade is below 70 |
| Analyzer.MeanBelow | optigrade_app.py:146-148 | a mean is below a threshold iff the sum is below threshold × count |
| Features.Synthesize | optigrade_app.py:121-126 | one derived record per current course, keeping the course; study hours are 3 × units; attendance is the mean previous attendance; CGPA is the first previous record's |
| Features.EstimatedGradePenalty | optigrade_app.py:122-123 | a course as hard as the previous mean difficulty is estimated at the mean grade, and two courses' estimates differ by 5 per point of difficulty between them |
| Features.MeanEstimatedGrade | optigrade_app.py:122-123 | the mean estimate is the mean grade less 5 × (mean current difficulty − mean previous difficulty) |
| Allocator.Weight | optigrade_app.py:155 | a course's weight (units × difficulty) lies between 1 and 30 |
| Allocator.TotalWeight | optigrade_app.py:156 | the total weight of a non-empty semester is positive, so the division is defined |
| Allocator.WeightWithinTotal | optigrade_app.py:156 | each weight is at most the total weight |
| Allocator.Allocate | optigrade_app.py:154-156 | one allocation per course, each in (0, 40] |
| Allocator.AllocationProportional | optigrade_app.py:155-156 | any two courses' hours stand in the ratio of their weights: h_i · w_j = h_j · w_i |
| Allocator.AllocationSpendsWeeklyHours | optigrade_app.py:154-156 | the allocations sum to exactly 40 |
| Allocator.AllocationFollowsWeight | optigrade_app.py:155-156 | a course gets strictly more hours iff it has strictly more weight, and equal hours iff equal weight |
| Allocator.EqualWeightsShareEvenly | optigrade_app.py:154-156 | when all weights are equal every course gets 40 / n hours (8 for the five courses of the form) |
| Prompt.JoinAt | optigrade_app.py:176-178 | in a ", "-join every part appears unchanged at its offset |
| Prompt.JoinSeparatorAfter | optigrade_app.py:176-178 | in a join the separator follows every part but the last |
| Prompt.CausePhrase | optigrade_app.py:176 | the phrase is the three slots, study hours, attendance and weak course, in that order, separated by ", ", empty slots included |
| Prompt.NoCausesLeaveSeparators | optigrade_app.py:176 | with no cause the phrase is ", , " |
| Prompt.CausePhraseFirstSlot | optigrade_app.py:176 | the phrase starts with "Low study hours, " when that cause holds and with ", " when it does not |
| Prompt.Decimal | optigrade_app.py:178 | a number's decimal text is non-empty and all digits |
| Prompt.DecimalRoundTrip | optigrade_app.py:178 | reading a number's decimal text gives back the number |
| Prompt.CourseListInOrder | optigrade_app.py:178 | the i-th label is that of the i-th current course, it appears unchanged at its offset in the list, and offsets increase with input order |
| Prompt.CourseLabelReadsBack | optigrade_app.py:178 | a label starts with the course id, and its units and difficulty read back from their positions |

## Left out

- The Streamlit UI is not modelled: page navigation, session state, reruns, widgets (beyond their value ranges) and everything written to the page.
- The XGBoost regressor is not modelled: its training on the previous frame and its prediction of the semester GPA are opaque numeric library code. The model of the prediction step stops at the derived columns of `Features`.
- As written, the results page never gets past optigrade_app.py:127. Selecting the feature columns from the current frame raises a KeyError because `grade` is not a column of that frame, and nothing catches it, so the script run ends there. The analysis (optigrade_app.py:131-151), the study plan (optigrade_app.py:153-160) and the recommendations (optigrade_app.py:162-186) are never reached. `Analyzer`, `Allocator` and `Prompt` model what those lines compute; no member models the crash.
- The Gemini call, the API key and dotenv are not modelled; they are network and environment I/O. So the prompt text is not modelled beyond its two computed pieces, the cause phrase and the course list.
- Number formatting (`:.1f`, `:.2f`) and float rounding are not modelled: values are exact reals.
- The unused imports (`train_test_split`, `mean_squared_error`) are not modelled.
- Allocator.AllocationSpendsWeeklyHours: holds exactly for reals; with Python floats the sum is 40 only up to rounding.
- Analyzer.Analyze: requires a non-empty previous semester. The results page is reached only after the previous form has stored its five stamped courses. On an empty frame, pandas would give NaN means and `iloc[0]` would raise.
- Analyzer.CauseFlagsFromRecords, Analyzer.WeakCourseIsFirstMinimum and Features.Synthesize: require a non-empty previous semester, for the same reason.
- The display of the high-difficulty list at optigrade_app.py:145 is not stated separately. It uses the same ", "-join as `Prompt.Join`.
