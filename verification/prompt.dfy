/** The two computed pieces of the recommendation prompt: the list of
    possible causes and the list of current-semester courses, each built by
    joining parts with ", ". */
module Prompt {
  import opened Records
  import opened Analyzer

  const Separator := ", "

  /** The parts joined with a separator between neighbours; "" for no parts. */
  function Join(parts: seq<string>, sep: string): string
  {
    if |parts| == 0 then ""
    else if |parts| == 1 then parts[0]
    else Join(parts[..|parts| - 1], sep) + sep + parts[|parts| - 1]
  }

  /** Where part `i` starts in the joined string: the parts before it, each
      followed by one separator. */
  function Offset(parts: seq<string>, sep: string, i: int): nat
    requires 0 <= i <= |parts|
  {
    if i == 0 then 0 else Offset(parts, sep, i - 1) + |parts[i - 1]| + |sep|
  }

  lemma {:induction false} OffsetPrefix(parts: seq<string>, sep: string, k: int, i: int)
    requires 0 <= i <= k <= |parts|
    ensures Offset(parts[..k], sep, i) == Offset(parts, sep, i)
  {
    if i > 0 {
      OffsetPrefix(parts, sep, k, i - 1);
    }
  }

  /** The joined string is as long as its parts and the separators between them. */
  lemma {:induction false} JoinLength(parts: seq<string>, sep: string)
    requires |parts| > 0
    ensures |Join(parts, sep)| + |sep| == Offset(parts, sep, |parts|)
  {
    var n := |parts|;
    if n > 1 {
      JoinLength(parts[..n - 1], sep);
      OffsetPrefix(parts, sep, n - 1, n - 1);
    }
  }

  lemma SliceOfFront(a: string, b: string, lo: int, hi: int)
    requires 0 <= lo <= hi <= |a|
    ensures (a + b)[lo..hi] == a[lo..hi]
  {
  }

  /** Join of all parts but the last, and where the last part starts. */
  lemma JoinSplit(parts: seq<string>, sep: string)
    requires |parts| > 1
    ensures Join(parts, sep) == Join(parts[..|parts| - 1], sep) + (sep + parts[|parts| - 1])
    ensures Offset(parts, sep, |parts| - 1) == |Join(parts[..|parts| - 1], sep)| + |sep|
  {
    JoinLength(parts[..|parts| - 1], sep);
    OffsetPrefix(parts, sep, |parts| - 1, |parts| - 1);
  }

  /** Every part appears, unchanged, at its offset. */
  lemma {:induction false} JoinAt(parts: seq<string>, sep: string, i: int)
    requires 0 <= i < |parts|
    ensures Offset(parts, sep, i) + |parts[i]| <= |Join(parts, sep)|
    ensures Join(parts, sep)[Offset(parts, sep, i)..Offset(parts, sep, i) + |parts[i]|] == parts[i]
  {
    var n := |parts|;
    if n > 1 {
      if i < n - 1 {
        JoinAt(parts[..n - 1], sep, i);
        JoinAtFront(parts, sep, i);
      } else {
        JoinAtLast(parts, sep);
      }
    }
  }

  lemma JoinAtFront(parts: seq<string>, sep: string, i: int)
    requires 0 <= i < |parts| - 1
    requires var front := Join(parts[..|parts| - 1], sep);
      var o := Offset(parts[..|parts| - 1], sep, i);
      o + |parts[i]| <= |front| && front[o..o + |parts[i]|] == parts[i]
    ensures Offset(parts, sep, i) + |parts[i]| <= |Join(parts, sep)|
    ensures Join(parts, sep)[Offset(parts, sep, i)..Offset(parts, sep, i) + |parts[i]|] == parts[i]
  {
    var n := |parts|;
    JoinSplit(parts, sep);
    OffsetPrefix(parts, sep, n - 1, i);
    var o := Offset(parts, sep, i);
    SliceOfFront(Join(parts[..n - 1], sep), sep + parts[n - 1], o, o + |parts[i]|);
  }

  lemma JoinAtLast(parts: seq<string>, sep: string)
    requires |parts| > 1
    ensures Offset(parts, sep, |parts| - 1) + |parts[|parts| - 1]| == |Join(parts, sep)|
    ensures Join(parts, sep)[Offset(parts, sep, |parts| - 1)..] == parts[|parts| - 1]
  {
    JoinSplit(parts, sep);
    var front, last := Join(parts[..|parts| - 1], sep), parts[|parts| - 1];
    assert (front + (sep + last))[|front| + |sep|..] == last;
  }

  /** A separator follows every part but the last. */
  lemma {:induction false} JoinSeparatorAfter(parts: seq<string>, sep: string, i: int)
    requires 0 <= i < |parts| - 1
    ensures Offset(parts, sep, i + 1) <= |Join(parts, sep)|
    ensures Join(parts, sep)[Offset(parts, sep, i) + |parts[i]|..Offset(parts, sep, i + 1)] == sep
  {
    var n := |parts|;
    JoinSplit(parts, sep);
    var front, back := Join(parts[..n - 1], sep), sep + parts[n - 1];
    var lo, hi := Offset(parts, sep, i) + |parts[i]|, Offset(parts, sep, i + 1);
    if i < n - 2 {
      JoinSeparatorAfter(parts[..n - 1], sep, i);
      OffsetPrefix(parts, sep, n - 1, i);
      OffsetPrefix(parts, sep, n - 1, i + 1);
      SliceOfFront(front, back, lo, hi);
    } else {
      assert lo == |front|;
      assert (front + back)[lo..hi] == back[..|sep|];
    }
  }

  // The cause phrase.

  function CauseSlots(causes: Causes, weakCourse: string): seq<string>
  {
    [if causes.lowStudyHours then "Low study hours" else "",
     if causes.lowAttendance then "Low attendance" else "",
     if causes.weakPerformance then "Poor performance in " + weakCourse else ""]
  }

  /** The causes as the prompt lists them: the three slots, study hours,
      attendance and weak course, in that order, with ", " between them; a
      slot whose cause does not hold is left empty rather than dropped. */
  function CausePhrase(causes: Causes, weakCourse: string): (s: string)
    ensures s == CauseSlots(causes, weakCourse)[0] + Separator +
                 CauseSlots(causes, weakCourse)[1] + Separator +
                 CauseSlots(causes, weakCourse)[2]
  {
    var slots := CauseSlots(causes, weakCourse);
    JoinSplit(slots, Separator);
    JoinSplit(slots[..2], Separator);
    assert slots[..2][..1] == [slots[0]];
    Join(slots, Separator)
  }

  /** With no cause at all, only the two separators remain. */
  lemma NoCausesLeaveSeparators(weakCourse: string)
    ensures CausePhrase(Causes(false, false, false), weakCourse) == ", , "
  {
  }

  /** The phrase starts with the study-hours cause exactly when it holds,
      and otherwise starts with the separator of the empty slot. */
  lemma CausePhraseFirstSlot(causes: Causes, weakCourse: string)
    ensures causes.lowStudyHours ==> "Low study hours, " <= CausePhrase(causes, weakCourse)
    ensures !causes.lowStudyHours ==> Separator <= CausePhrase(causes, weakCourse)
  {
    var slots := CauseSlots(causes, weakCourse);
    var rest := slots[1] + Separator + slots[2];
    assert CausePhrase(causes, weakCourse) == (slots[0] + Separator) + rest;
  }

  // The current-course list.

  function Digit(d: int): char
    requires 0 <= d < 10
  {
    "0123456789"[d]
  }

  /** Decimal notation of a natural number, as Python's `str` writes it. */
  function Decimal(n: nat): (s: string)
    ensures |s| > 0
    ensures forall k :: 0 <= k < |s| ==> '0' <= s[k] <= '9'
  {
    if n < 10 then [Digit(n)] else Decimal(n / 10) + [Digit(n % 10)]
  }

  /** Reads back a string of decimal digits. */
  function ParseDecimal(s: string): nat
    requires forall k :: 0 <= k < |s| ==> '0' <= s[k] <= '9'
  {
    if |s| == 0 then 0
    else ParseDecimal(s[..|s| - 1]) * 10 + (s[|s| - 1] as int - '0' as int)
  }

  lemma {:induction false} DecimalRoundTrip(n: nat)
    ensures ParseDecimal(Decimal(n)) == n
  {
    var s := Decimal(n);
    if n >= 10 {
      DecimalRoundTrip(n / 10);
      assert s[..|s| - 1] == Decimal(n / 10);
    }
  }

  /** One course of the list: "id (u units, difficulty: d)". */
  function CourseLabel(c: CurrRow): string
  {
    c.courseId + " (" + Decimal(c.units) + " units, difficulty: " + Decimal(c.difficulty) + ")"
  }

  function CourseLabels(curr: seq<CurrRow>): seq<string>
  {
    seq(|curr|, i requires 0 <= i < |curr| => CourseLabel(curr[i]))
  }

  /** The current courses as the prompt lists them. */
  function CourseList(curr: seq<CurrRow>): string
  {
    Join(CourseLabels(curr), Separator)
  }

  /** Each current course's label appears at its place in the list, in
      input order. */
  lemma CourseListInOrder(curr: seq<CurrRow>, i: int)
    requires 0 <= i < |curr|
    ensures |CourseLabels(curr)| == |curr| && CourseLabels(curr)[i] == CourseLabel(curr[i])
    ensures var o := Offset(CourseLabels(curr), Separator, i);
      o + |CourseLabels(curr)[i]| <= |CourseList(curr)| &&
      CourseList(curr)[o..o + |CourseLabels(curr)[i]|] == CourseLabels(curr)[i]
    ensures forall j :: 0 <= j < i ==>
      Offset(CourseLabels(curr), Separator, j) < Offset(CourseLabels(curr), Separator, i)
  {
    JoinAt(CourseLabels(curr), Separator, i);
    OffsetGrows(CourseLabels(curr), Separator, i);
  }

  /** A course's label gives back its id, units and difficulty. */
  lemma CourseLabelReadsBack(c: CurrRow)
    ensures var u := |c.courseId| + 2;
      var d := u + |Decimal(c.units)| + |" units, difficulty: "|;
      |CourseLabel(c)| == d + |Decimal(c.difficulty)| + 1 &&
      CourseLabel(c)[..|c.courseId|] == c.courseId &&
      ParseDecimal(CourseLabel(c)[u..u + |Decimal(c.units)|]) == c.units &&
      ParseDecimal(CourseLabel(c)[d..d + |Decimal(c.difficulty)|]) == c.difficulty
  {
  }

  lemma {:induction false} OffsetGrows(parts: seq<string>, sep: string, i: int)
    requires 0 <= i <= |parts| && |sep| > 0
    ensures forall j :: 0 <= j < i ==> Offset(parts, sep, j) < Offset(parts, sep, i)
  {
    if i > 0 {
      OffsetGrows(parts, sep, i - 1);
    }
  }
}
