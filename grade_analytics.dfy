// The grade analytics page (src/mockup/MockupGradeAnalytics.tsx): the
// students of one grade level or of the whole school, ranked by GPA, with
// the averages, the honour-roll and at-risk counts, the letter-grade
// distribution, the quarterly trend and the per-subject breakdown.

module GradeAnalytics {
  import opened Common
  import opened Sorting
  import Students
  import Grades
  import Flags
  import Analytics

  /** The grade levels offered by the picker, K to 5. */
  const AllGrades: seq<string> := Students.GradeLevels

  /** `targetStudents`: the whole roster for "all", otherwise the students
      of the chosen grade level, in roster order. */
  function TargetStudents(roster: seq<Students.Student>, selected: string): (r: seq<Students.Student>)
    ensures selected == "all" ==> r == roster
    ensures IsSubseq(r, roster)
    ensures selected != "all" ==>
              (forall i :: 0 <= i < |r| ==> r[i].grade == selected)
              && forall i :: 0 <= i < |roster| && roster[i].grade == selected ==> roster[i] in r
  {
    if selected == "all" then
      SubseqRefl(roster);
      roster
    else Students.GetStudentsByGrade(roster, selected)
  }

  // ---------------------------------------------------------------------
  // Per-student figures

  /** One ranking row: GPA in hundredths, the quarterly GPAs and the flags. */
  datatype GradeStat = GradeStat(student: Students.Student, gpa: int,
                                 quarterly: seq<Grades.QuarterGpa>, flags: seq<Flags.StudentFlag>)

  predicate InRange(st: GradeStat)
  {
    0 <= st.gpa <= 400 && forall q :: 0 <= q < |st.quarterly| ==> 0 <= st.quarterly[q].gpa <= 400
  }

  function StatOf(d: Flags.Dataset, s: Students.Student): (st: GradeStat)
    requires Flags.WellFormed(d)
    ensures st.student == s && InRange(st)
  {
    GradeStat(s, Grades.GetStudentGPA(d.grades, s.id), Grades.GetStudentQuarterlyGPA(d.grades, s.id),
              Flags.StudentFlagsIn(Flags.AllFlagsOf(d, d.roster), s.id))
  }

  /** The rows in roster order, before ranking. */
  function Rows(d: Flags.Dataset, targets: seq<Students.Student>): (r: seq<GradeStat>)
    requires Flags.WellFormed(d)
    ensures |r| == |targets|
    ensures forall i :: 0 <= i < |r| ==> r[i] == StatOf(d, targets[i])
  {
    seq(|targets|, i requires 0 <= i < |targets| => StatOf(d, targets[i]))
  }

  function GpaKey(): GradeStat -> int
  {
    (st: GradeStat) => st.gpa
  }

  /** `studentStats`: one row per target student, ranked by non-increasing
      GPA. */
  function StudentStats(d: Flags.Dataset, targets: seq<Students.Student>): (r: seq<GradeStat>)
    requires Flags.WellFormed(d)
    ensures multiset(r) == multiset(Rows(d, targets))
    ensures forall i, j :: 0 <= i < j < |r| ==> r[i].gpa >= r[j].gpa
    ensures forall i :: 0 <= i < |r| ==> InRange(r[i])
  {
    var rows := Rows(d, targets);
    var r := SortByKeyDesc(rows, GpaKey());
    assert forall i :: 0 <= i < |r| ==> r[i] in multiset(rows);
    r
  }

  predicate AllInRange(stats: seq<GradeStat>)
  {
    forall i :: 0 <= i < |stats| ==> InRange(stats[i])
  }

  /** `avgGPA`: 0 for no students, otherwise the mean GPA rounded to
      hundredths. */
  function AverageGpa(stats: seq<GradeStat>): (r: int)
    requires AllInRange(stats)
    ensures stats == [] ==> r == 0
    ensures stats != [] ==>
              2 * |stats| * r <= 2 * SumOf(stats, GpaKey()) + |stats| < 2 * |stats| * r + 2 * |stats|
    ensures 0 <= r <= 400
  {
    if stats == [] then 0
    else
      SumOfBounds(stats, GpaKey(), 0, 400);
      RoundedMeanWithin(SumOf(stats, GpaKey()), |stats|, 1, 0, 400);
      RoundHalfUpNearest(SumOf(stats, GpaKey()), |stats|);
      RoundedMean(SumOf(stats, GpaKey()), |stats|, 1)
  }

  function HonorTest(): GradeStat -> bool
  {
    (st: GradeStat) => st.gpa >= 350
  }

  function AtRiskTest(): GradeStat -> bool
  {
    (st: GradeStat) => st.gpa < 200
  }

  /** The honour roll (GPA 3.5 and up) and the at-risk list (below 2.0)
      share no student, so their sizes add up to at most the student
      count. */
  lemma HonorAndAtRiskDisjoint(stats: seq<GradeStat>)
    ensures forall st :: st in Filter(stats, HonorTest()) ==> st !in Filter(stats, AtRiskTest())
    ensures |Filter(stats, HonorTest())| + |Filter(stats, AtRiskTest())| <= |stats|
  {
    FilterDisjoint(stats, HonorTest(), AtRiskTest());
  }

  // ---------------------------------------------------------------------
  // GPA by grade level

  datatype LevelGpa = LevelGpa(grade: string, gpa: int)

  function StudentGpa(records: seq<Grades.GradeRecord>): Students.Student -> int
  {
    (s: Students.Student) => Grades.GetStudentGPA(records, s.id)
  }

  /** The mean GPA of one grade level's students, 0 when it has none. */
  function GradeLevelGpa(d: Flags.Dataset, grade: string): (r: int)
    ensures Students.GetStudentsByGrade(d.roster, grade) == [] ==> r == 0
    ensures 0 <= r <= 400
  {
    var students := Students.GetStudentsByGrade(d.roster, grade);
    if students == [] then 0
    else
      SumOfBounds(students, StudentGpa(d.grades), 0, 400);
      RoundedMeanWithin(SumOf(students, StudentGpa(d.grades)), |students|, 1, 0, 400);
      RoundedMean(SumOf(students, StudentGpa(d.grades)), |students|, 1)
  }

  /** `gpaByGradeLevel`: one bar per grade level, K to 5 in order. */
  function GpaByGradeLevel(d: Flags.Dataset): (r: seq<LevelGpa>)
    ensures |r| == |AllGrades|
    ensures forall k :: 0 <= k < |r| ==> r[k].grade == "Grade " + AllGrades[k] && 0 <= r[k].gpa <= 400
    ensures forall k :: 0 <= k < |r| && Students.GetStudentsByGrade(d.roster, AllGrades[k]) == [] ==> r[k].gpa == 0
  {
    seq(|AllGrades|, k requires 0 <= k < |AllGrades| => LevelGpa("Grade " + AllGrades[k], GradeLevelGpa(d, AllGrades[k])))
  }

  // ---------------------------------------------------------------------
  // Letter-grade distribution

  const Letters: seq<string> := ["A", "B", "C", "D", "F"]

  function Currents(rs: seq<Grades.GradeRecord>): (r: seq<string>)
    ensures |r| == |rs| && forall i :: 0 <= i < |rs| ==> r[i] == rs[i].current
  {
    seq(|rs|, i requires 0 <= i < |rs| => rs[i].current)
  }

  /** Every current grade of the listed students, student by student. */
  function AllCurrents(records: seq<Grades.GradeRecord>, stats: seq<GradeStat>): seq<string>
  {
    if stats == [] then []
    else AllCurrents(records, stats[..|stats| - 1])
         + Currents(Grades.GetStudentGrades(records, stats[|stats| - 1].student.id))
  }

  /** The position of a letter among A to F, if it is one of them: the
      tally `counts[g.current]` exists for exactly these five keys. */
  function LetterIndex(g: string): (r: Option<nat>)
    ensures r.None? <==> g !in Letters
    ensures r.Some? ==> r.value < |Letters| && Letters[r.value] == g
  {
    if g == "A" then Some(0)
    else if g == "B" then Some(1)
    else if g == "C" then Some(2)
    else if g == "D" then Some(3)
    else if g == "F" then Some(4)
    else None
  }

  /** Tallies, position by position, that count each letter in `seen`. */
  predicate Counts(counts: seq<nat>, seen: seq<string>)
  {
    |counts| == |Letters| && forall k :: 0 <= k < |Letters| ==> counts[k] == CountIn(seen, Letters[k])
  }

  /** The inner loop: adds one student's current grades to the tallies,
      ignoring any grade that has no tally. */
  method TallyGrades(counts: seq<nat>, seen: seq<string>, grades: seq<string>) returns (r: seq<nat>)
    requires Counts(counts, seen)
    ensures Counts(r, seen + grades)
  {
    r := counts;
    var j := 0;
    assert seen + grades[..0] == seen;
    while j < |grades|
      invariant 0 <= j <= |grades|
      invariant Counts(r, seen + grades[..j])
    {
      var g := grades[j];
      assert seen + grades[..j + 1] == (seen + grades[..j]) + [g];
      forall k | 0 <= k < |Letters| {
        CountInSnoc(seen + grades[..j], g, Letters[k]);
      }
      var at := LetterIndex(g);
      if at.Some? {
        r := r[at.value := r[at.value] + 1];
      }
      j := j + 1;
    }
    assert grades[..j] == grades;
  }

  /** `gradeDistribution`: for each letter A to F in order, how many current
      grades of the listed students carry it; any other grade is skipped. */
  method GradeDistribution(records: seq<Grades.GradeRecord>, stats: seq<GradeStat>)
    returns (dist: seq<Analytics.GradeCount>)
    ensures |dist| == |Letters|
    ensures forall k :: 0 <= k < |Letters| ==>
              dist[k] == Analytics.GradeCount(Letters[k], CountIn(AllCurrents(records, stats), Letters[k]))
  {
    var counts: seq<nat> := [0, 0, 0, 0, 0];
    var i := 0;
    assert AllCurrents(records, stats[..0]) == [];
    while i < |stats|
      invariant 0 <= i <= |stats|
      invariant Counts(counts, AllCurrents(records, stats[..i]))
    {
      var grades := Currents(Grades.GetStudentGrades(records, stats[i].student.id));
      counts := TallyGrades(counts, AllCurrents(records, stats[..i]), grades);
      assert stats[..i + 1][..i] == stats[..i];
      i := i + 1;
    }
    assert stats[..i] == stats;
    dist := seq(|Letters|, k requires 0 <= k < |Letters| => Analytics.GradeCount(Letters[k], counts[k]));
  }

  // ---------------------------------------------------------------------
  // Quarterly trend

  function QuarterIs(quarter: string): Grades.QuarterGpa -> bool
  {
    (e: Grades.QuarterGpa) => e.quarter == quarter
  }

  /** `quarterlyGPA.find(x => x.quarter === q)?.gpa ?? 0`. */
  function QuarterValue(quarterly: seq<Grades.QuarterGpa>, quarter: string): (r: int)
    ensures (forall i :: 0 <= i < |quarterly| ==> quarterly[i].quarter != quarter) ==> r == 0
    ensures (exists i :: 0 <= i < |quarterly| && quarterly[i].quarter == quarter) ==>
              exists i :: 0 <= i < |quarterly| && quarterly[i].quarter == quarter && quarterly[i].gpa == r
                          && forall j :: 0 <= j < i ==> quarterly[j].quarter != quarter
  {
    match Find(quarterly, QuarterIs(quarter))
    case None => 0
    case Some(e) => e.gpa
  }

  lemma QuarterValueWithin(quarterly: seq<Grades.QuarterGpa>, quarter: string)
    requires forall q :: 0 <= q < |quarterly| ==> 0 <= quarterly[q].gpa <= 400
    ensures 0 <= QuarterValue(quarterly, quarter) <= 400
  {
  }

  function QuarterKey(quarter: string): GradeStat -> int
  {
    (st: GradeStat) => QuarterValue(st.quarterly, quarter)
  }

  /** The mean of one quarter over the listed students; a student without
      that quarter adds 0, and no students average to 0. */
  function QuarterMean(stats: seq<GradeStat>, quarter: string): (r: int)
    requires AllInRange(stats)
    ensures stats == [] ==> r == 0
    ensures 0 <= r <= 400
  {
    if stats == [] then 0
    else
      forall i | 0 <= i < |stats| ensures 0 <= QuarterKey(quarter)(stats[i]) <= 400 {
        QuarterValueWithin(stats[i].quarterly, quarter);
      }
      SumOfBounds(stats, QuarterKey(quarter), 0, 400);
      RoundedMeanWithin(SumOf(stats, QuarterKey(quarter)), |stats|, 1, 0, 400);
      RoundedMean(SumOf(stats, QuarterKey(quarter)), |stats|, 1)
  }

  /** `quarterlyTrend`: four points, Q1 to Q4 in order. */
  function QuarterlyTrend(stats: seq<GradeStat>): (r: seq<Grades.QuarterGpa>)
    requires AllInRange(stats)
    ensures |r| == 4
    ensures forall q :: 0 <= q < 4 ==> r[q].quarter == Grades.Quarters[q] && 0 <= r[q].gpa <= 400
    ensures stats == [] ==> forall q :: 0 <= q < 4 ==> r[q].gpa == 0
  {
    seq(4, q requires 0 <= q < 4 => Grades.QuarterGpa(Grades.Quarters[q], QuarterMean(stats, Grades.Quarters[q])))
  }

  /** A student's trend arrow: up when Q3 beats Q1, down when it trails. */
  datatype Direction = Up | Down | Steady

  function TrendOf(quarterly: seq<Grades.QuarterGpa>): (r: Direction)
    ensures r == Up <==> QuarterValue(quarterly, "Q3") > QuarterValue(quarterly, "Q1")
    ensures r == Down <==> QuarterValue(quarterly, "Q3") < QuarterValue(quarterly, "Q1")
  {
    var q1 := QuarterValue(quarterly, "Q1");
    var q3 := QuarterValue(quarterly, "Q3");
    if q3 > q1 then Up else if q3 < q1 then Down else Steady
  }

  /** For a student with grade records, whose quarterly list is Q1..Q4, the
      arrow compares the Q3 and Q1 averages. */
  lemma TrendOfRecords(records: seq<Grades.GradeRecord>, studentId: string)
    requires Grades.GetStudentGrades(records, studentId) != []
    ensures var quarterly := Grades.GetStudentQuarterlyGPA(records, studentId);
            var mine := Grades.GetStudentGrades(records, studentId);
            (TrendOf(quarterly) == Up <==> Grades.QuarterAverage(mine, 2) > Grades.QuarterAverage(mine, 0))
            && (TrendOf(quarterly) == Down <==> Grades.QuarterAverage(mine, 2) < Grades.QuarterAverage(mine, 0))
  {
    var quarterly := Grades.GetStudentQuarterlyGPA(records, studentId);
    var mine := Grades.GetStudentGrades(records, studentId);
    assert quarterly[0].quarter == "Q1" && quarterly[2].quarter == "Q3";
    assert quarterly[1].quarter != "Q3" && quarterly[1].quarter != "Q1";
    assert QuarterValue(quarterly, "Q1") == quarterly[0].gpa;
    assert QuarterValue(quarterly, "Q3") == quarterly[2].gpa;
  }

  /** The GPA cell's colour in the ranking. */
  datatype RankColor = RankGreen | RankLime | RankYellow | RankRed

  function RankColorOf(gpa: int): (c: RankColor)
    ensures c == RankGreen <==> gpa >= 350
    ensures c == RankLime <==> 250 <= gpa < 350
    ensures c == RankYellow <==> 200 <= gpa < 250
    ensures c == RankRed <==> gpa < 200
  {
    if gpa >= 350 then RankGreen else if gpa >= 250 then RankLime else if gpa >= 200 then RankYellow else RankRed
  }

  // ---------------------------------------------------------------------
  // Subject breakdown

  const Subjects: seq<string> :=
    ["Mathematics", "English Language Arts", "Science", "Social Studies", "Art", "Physical Education"]

  function CourseIs(subject: string): Grades.GradeRecord -> bool
  {
    (g: Grades.GradeRecord) => g.course == subject
  }

  /** The current grade of each listed student's first record in the
      subject, skipping students without one. */
  function SubjectGrades(records: seq<Grades.GradeRecord>, stats: seq<GradeStat>, subject: string): (r: seq<string>)
    ensures |r| <= |stats|
  {
    if stats == [] then []
    else
      var front := SubjectGrades(records, stats[..|stats| - 1], subject);
      match Find(Grades.GetStudentGrades(records, stats[|stats| - 1].student.id), CourseIs(subject))
      case Some(g) => front + [g.current]
      case None => front
  }

  /** The loop that gathers one subject's grades. */
  method CollectSubjectGrades(records: seq<Grades.GradeRecord>, stats: seq<GradeStat>, subject: string)
    returns (all: seq<string>)
    ensures all == SubjectGrades(records, stats, subject)
  {
    all := [];
    var i := 0;
    while i < |stats|
      invariant 0 <= i <= |stats|
      invariant all == SubjectGrades(records, stats[..i], subject)
    {
      assert stats[..i + 1][..i] == stats[..i];
      var found := Find(Grades.GetStudentGrades(records, stats[i].student.id), CourseIs(subject));
      if found.Some? {
        all := all + [found.value.current];
      }
      i := i + 1;
    }
    assert stats[..i] == stats;
  }

  datatype SubjectRow = SubjectRow(subject: string, avgGpa: int, total: nat)

  function PointsOf(): string -> int
  {
    (g: string) => Grades.GpaPoints(g)
  }

  /** A subject's row: the mean grade points in hundredths (0 with no
      grades) and the number of grades. */
  function SubjectRowOf(subject: string, grades: seq<string>): (row: SubjectRow)
    ensures row.subject == subject && row.total == |grades|
    ensures grades == [] ==> row.avgGpa == 0
    ensures 0 <= row.avgGpa <= 400
  {
    if grades == [] then SubjectRow(subject, 0, 0)
    else
      SumOfBounds(grades, PointsOf(), 0, 4);
      RoundedMeanWithin(SumOf(grades, PointsOf()), |grades|, 100, 0, 4);
      SubjectRow(subject, RoundedMean(SumOf(grades, PointsOf()), |grades|, 100), |grades|)
  }

  function SubjectRows(records: seq<Grades.GradeRecord>, stats: seq<GradeStat>): (r: seq<SubjectRow>)
    ensures |r| == |Subjects|
    ensures forall k :: 0 <= k < |r| ==> r[k] == SubjectRowOf(Subjects[k], SubjectGrades(records, stats, Subjects[k]))
  {
    seq(|Subjects|, k requires 0 <= k < |Subjects| => SubjectRowOf(Subjects[k], SubjectGrades(records, stats, Subjects[k])))
  }

  function AvgKey(): SubjectRow -> int
  {
    (row: SubjectRow) => row.avgGpa
  }

  /** `subjectBreakdown`: one row per subject, ranked by non-increasing
      average. */
  method SubjectBreakdown(records: seq<Grades.GradeRecord>, stats: seq<GradeStat>) returns (rows: seq<SubjectRow>)
    ensures multiset(rows) == multiset(SubjectRows(records, stats))
    ensures forall i, j :: 0 <= i < j < |rows| ==> rows[i].avgGpa >= rows[j].avgGpa
  {
    var unsorted: seq<SubjectRow> := [];
    var k := 0;
    while k < |Subjects|
      invariant 0 <= k <= |Subjects|
      invariant unsorted == SubjectRows(records, stats)[..k]
    {
      var grades := CollectSubjectGrades(records, stats, Subjects[k]);
      unsorted := unsorted + [SubjectRowOf(Subjects[k], grades)];
      k := k + 1;
    }
    assert unsorted == SubjectRows(records, stats);
    rows := SortByKeyDesc(unsorted, AvgKey());
  }
}
