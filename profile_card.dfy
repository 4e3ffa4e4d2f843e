// A student's profile page (src/mockup/MockupProfileCard.tsx): which
// student is shown, the status colour of each section, the latest score of
// each assessment, and the attendance totals.

module ProfileCard {
  import opened Common
  import Students
  import Attendance
  import Grades
  import Assessments
  import Discipline
  import Chat
  import Flags
  import Session

  /** The coloured dot of a collapsible section. */
  datatype StatusColor = Green | Yellow | Red | Gray

  /** A collapsible section: a header that opens and closes its body. */
  class Section {
    var isOpen: bool

    /** A section starts open only when it is marked open by default. */
    constructor(defaultOpen: bool)
      ensures isOpen == defaultOpen
    {
      isOpen := defaultOpen;
    }

    /** Clicking the header opens a closed section and closes an open one. */
    method Toggle()
      modifies this
      ensures isOpen == !old(isOpen)
    {
      isOpen := !isOpen;
    }
  }

  /** The tones of a flag chip. */
  datatype Tone = RedTone | AmberTone | YellowTone

  /** `flagSeverityColor`: red for high, amber for medium, yellow for low. */
  function FlagSeverityColor(severity: Flags.Severity): (t: Tone)
    ensures t == RedTone <==> severity == Flags.High
    ensures t == AmberTone <==> severity == Flags.Medium
    ensures t == YellowTone <==> severity == Flags.Low
  {
    match severity
    case High => RedTone
    case Medium => AmberTone
    case Low => YellowTone
  }

  /** The back button returns to the search results. */
  method BackToSearch(ctx: Session.AppContext)
    modifies ctx
    ensures ctx.route == "/try/search"
    ensures ctx.selectedStudents == old(ctx.selectedStudents) && ctx.searchQuery == old(ctx.searchQuery)
    ensures ctx.sidebarOpen == old(ctx.sidebarOpen) && ctx.showTour == old(ctx.showTour) && ctx.currentView == old(ctx.currentView)
  {
    ctx.route := "/try/search";
  }

  /** The first selected student, or the roster's first when none is. */
  function DisplayedStudent(selected: seq<Students.Student>, roster: seq<Students.Student>): (s: Students.Student)
    requires roster != []
    ensures selected != [] ==> s == selected[0]
    ensures selected == [] ==> s == roster[0]
  {
    if selected != [] then selected[0] else roster[0]
  }

  /** `attendanceStatusColor`, on a rate in tenths of a percent. */
  function AttendanceStatusColor(rate: int): (c: StatusColor)
    ensures c == Green <==> rate >= 950
    ensures c == Yellow <==> 900 <= rate < 950
    ensures c == Red <==> rate < 900
  {
    if rate >= 950 then Green else if rate >= 900 then Yellow else Red
  }

  /** The grades section's colour, on a GPA in hundredths. */
  function GradeStatus(gpa: int): (c: StatusColor)
    ensures c == Green <==> gpa >= 300
    ensures c == Yellow <==> 200 <= gpa < 300
    ensures c == Red <==> gpa < 200
  {
    if gpa >= 300 then Green else if gpa >= 200 then Yellow else Red
  }

  /** The colour a tier is shown in. */
  function TierColor(t: Chat.Tier): StatusColor
  {
    match t
    case Strong => Green
    case Middling => Yellow
    case Weak => Red
  }

  /** The card's colours agree with the assistant's notes: the same
      thresholds, 95% and 90% for attendance and 3.0 and 2.0 for GPA. */
  lemma ColoursMatchTiers(rate: int, gpa: int)
    ensures AttendanceStatusColor(rate) == TierColor(Chat.AttendanceTier(rate))
    ensures GradeStatus(gpa) == TierColor(Chat.GpaTier(gpa))
  {
  }

  function SourceTest(source: string): Assessments.AssessmentRecord -> bool
  {
    (a: Assessments.AssessmentRecord) => a.source == source
  }

  /** `getLatestAssessment(source)`: the student's last record of that
      source, or none. */
  function GetLatestAssessment(assessments: seq<Assessments.AssessmentRecord>, source: string)
    : (r: Option<Assessments.AssessmentRecord>)
    ensures r.None? <==> forall i :: 0 <= i < |assessments| ==> assessments[i].source != source
    ensures r.Some? ==> exists i :: 0 <= i < |assessments| && assessments[i] == r.value && r.value.source == source
                                   && forall j :: i < j < |assessments| ==> assessments[j].source != source
  {
    match LastIndex(assessments, source)
    case None => None
    case Some(k) =>
      assert assessments[k] == assessments[k];
      Some(assessments[k])
  }

  /** The index of the last record of the source. */
  function LastIndex(s: seq<Assessments.AssessmentRecord>, source: string): (r: Option<nat>)
    ensures r.None? <==> forall i :: 0 <= i < |s| ==> s[i].source != source
    ensures r.Some? ==> r.value < |s| && s[r.value].source == source
                        && forall j :: r.value < j < |s| ==> s[j].source != source
  {
    if s == [] then None
    else if s[|s| - 1].source == source then Some(|s| - 1)
    else LastIndex(s[..|s| - 1], source)
  }

  /** The record found is the last one of `recs = assessments.filter(...)`,
      as the source picks it with `recs[recs.length - 1]`. */
  lemma {:induction false} LatestIsLastOfFilter(assessments: seq<Assessments.AssessmentRecord>, source: string)
    ensures var recs := Filter(assessments, SourceTest(source));
            GetLatestAssessment(assessments, source) == if recs == [] then None else Some(recs[|recs| - 1])
  {
    if assessments != [] {
      var front := assessments[..|assessments| - 1];
      var x := assessments[|assessments| - 1];
      assert assessments == front + [x];
      LatestIsLastOfFilter(front, source);
      FilterAppend(front, [x], SourceTest(source));
      assert Filter([x], SourceTest(source)) == if x.source == source then [x] else [];
      assert LastIndex(assessments, source) == if x.source == source then Some(|front|) else LastIndex(front, source);
    }
  }

  /** An assessment section's colour: gray with no record, green on or
      above grade level, yellow when approaching, red otherwise. */
  function AssessmentStatus(latest: Option<Assessments.AssessmentRecord>): (c: StatusColor)
    ensures c == Gray <==> latest.None?
    ensures c == Green <==> latest.Some? && latest.value.proficiency in {Some(Assessments.ABOVE_GRADE_LEVEL), Some(Assessments.ON_GRADE_LEVEL)}
    ensures c == Yellow <==> latest.Some? && latest.value.proficiency == Some(Assessments.APPROACHING)
  {
    if latest.None? then Gray
    else if latest.value.proficiency == Some(Assessments.ABOVE_GRADE_LEVEL) then Green
    else if latest.value.proficiency == Some(Assessments.ON_GRADE_LEVEL) then Green
    else if latest.value.proficiency == Some(Assessments.APPROACHING) then Yellow
    else Red
  }

  /** The discipline section's colour: none is green, three or more red,
      one or two yellow. */
  function DisciplineStatus(count: nat): (c: StatusColor)
    ensures c == Green <==> count == 0
    ensures c == Red <==> count >= 3
    ensures c == Yellow <==> 1 <= count <= 2
  {
    if count == 0 then Green else if count >= 3 then Red else Yellow
  }

  /** The noun of the discipline title, "record" or "records". The section
      is only drawn for a student with at least one record. */
  function RecordNoun(count: nat): (r: string)
    requires count > 0
    ensures r == "record" <==> count == 1
    ensures r == "records" <==> count > 1
  {
    "record" + if count > 1 then "s" else ""
  }

  function AbsentOf(): Attendance.AttendanceRecord -> int
  {
    (r: Attendance.AttendanceRecord) => r.absent
  }

  function TardyOf(): Attendance.AttendanceRecord -> int
  {
    (r: Attendance.AttendanceRecord) => r.tardy
  }

  /** What the card shows about one student. */
  datatype Card = Card(
    student: Students.Student,
    attendanceStatus: StatusColor,
    gradeStatus: StatusColor,
    readingStatus: StatusColor,
    mathStatus: StatusColor,
    fastElaStatus: StatusColor,
    fastMathStatus: StatusColor,
    disciplineStatus: StatusColor,
    disciplineCount: nat,
    totals: Totals)

  /** The card for the displayed student. */
  function ProfileOf(selected: seq<Students.Student>, roster: seq<Students.Student>,
                     attendance: seq<Attendance.AttendanceRecord>, grades: seq<Grades.GradeRecord>,
                     assessments: seq<Assessments.AssessmentRecord>,
                     discipline: seq<Discipline.DisciplineRecord>): (c: Card)
    requires roster != [] && Attendance.AllValid(attendance)
    ensures c.student == DisplayedStudent(selected, roster)
    ensures c.disciplineCount == |Discipline.GetStudentDiscipline(discipline, c.student.id)|
  {
    var s := DisplayedStudent(selected, roster);
    var tests := Assessments.GetStudentAssessments(assessments, s.id);
    var incidents := Discipline.GetStudentDiscipline(discipline, s.id);
    Card(s,
         AttendanceStatusColor(Attendance.GetStudentAttendanceRate(attendance, s.id)),
         GradeStatus(Grades.GetStudentGPA(grades, s.id)),
         AssessmentStatus(GetLatestAssessment(tests, "iready-reading")),
         AssessmentStatus(GetLatestAssessment(tests, "iready-math")),
         AssessmentStatus(GetLatestAssessment(tests, "fast-ela")),
         AssessmentStatus(GetLatestAssessment(tests, "fast-math")),
         DisciplineStatus(|incidents|),
         |incidents|,
         AttendanceTotals(attendance, s.id))
  }

  /** A student's days present, absent and tardy over the year. */
  datatype Totals = Totals(present: int, absent: int, tardy: int)

  /** The three `reduce` sums over the student's monthly records. */
  function AttendanceTotals(attendance: seq<Attendance.AttendanceRecord>, studentId: string): Totals
  {
    var mine := Attendance.GetStudentAttendance(attendance, studentId);
    Totals(SumOf(mine, Attendance.PresentOf()), SumOf(mine, AbsentOf()), SumOf(mine, TardyOf()))
  }

  /** The totals agree with the rate: present plus absent is every school
      day counted, and for a student with records the rate is the share
      present, in tenths. */
  lemma TotalsMatchRate(attendance: seq<Attendance.AttendanceRecord>, studentId: string)
    requires Attendance.AllValid(attendance)
    ensures var t := AttendanceTotals(attendance, studentId);
            var mine := Attendance.GetStudentAttendance(attendance, studentId);
            && 0 <= t.present && 0 <= t.absent
            && t.present + t.absent == SumOf(mine, Attendance.DaysOf())
            && (mine != [] ==>
                  t.present + t.absent > 0
                  && Attendance.GetStudentAttendanceRate(attendance, studentId)
                     == RoundHalfUp(1000 * t.present, t.present + t.absent))
  {
    var mine := Attendance.GetStudentAttendance(attendance, studentId);
    SumOfPlus(mine, Attendance.PresentOf(), AbsentOf(), Attendance.DaysOf());
    assert Attendance.AllValid(mine) by {
      FilterMembers(attendance, Attendance.OwnerTest(studentId));
      forall i | 0 <= i < |mine| ensures Attendance.ValidRecord(mine[i]) {
        assert mine[i] in attendance;
      }
    }
    Attendance.TotalsOfValid(mine);
  }
}
