// The class analytics page (src/mockup/MockupAnalytics.tsx): the homeroom
// picker, each student's figures, the homeroom averages, the flagged
// count and the GPA-band distribution.

module Analytics {
  import opened Common
  import opened Sorting
  import Students
  import Attendance
  import Grades
  import Assessments
  import Flags
  import Session

  // ---------------------------------------------------------------------
  // Homerooms

  function HomeroomOf(s: Students.Student): string
  {
    s.homeroom
  }

  function Identity(): string -> string
  {
    (h: string) => h
  }

  /** Every student's homeroom, in roster order. */
  function HomeroomNames(roster: seq<Students.Student>): (r: seq<string>)
    ensures |r| == |roster|
    ensures forall i :: 0 <= i < |roster| ==> r[i] == roster[i].homeroom
  {
    seq(|roster|, i requires 0 <= i < |roster| => roster[i].homeroom)
  }

  /** `Array.from(new Set(students.map(s => s.homeroom))).sort()`: each
      homeroom once, in code-unit order. */
  function Homerooms(roster: seq<Students.Student>): (r: seq<string>)
    ensures NoDup(r)
    ensures forall h :: h in r <==> h in HomeroomNames(roster)
  {
    var unique := Dedup(HomeroomNames(roster));
    var r := SortWith(unique, CompareBy(Identity()));
    NoDupPermutation(unique, r);
    assert forall h :: h in r <==> h in multiset(unique);
    r
  }

  /** The homerooms are listed in ascending order. */
  lemma HomeroomsSorted(roster: seq<Students.Student>)
    ensures SortedBy(Homerooms(roster), CompareBy(Identity()))
  {
    CompareByConsistent(Identity());
    SortWithSorted(Dedup(HomeroomNames(roster)), CompareBy(Identity()));
  }

  /** The picker starts on the first homeroom, if there is one: the
      smallest of them. */
  function DefaultHomeroom(roster: seq<Students.Student>): (r: Option<string>)
    ensures r.None? <==> roster == []
    ensures r.Some? ==> r.value in Homerooms(roster)
                        && forall h :: h in Homerooms(roster) ==> CompareStrings(r.value, h) <= 0
  {
    var hs := Homerooms(roster);
    if roster == [] then
      None
    else
      assert HomeroomNames(roster)[0] in hs;
      HomeroomsSorted(roster);
      assert forall j :: 0 < j < |hs| ==> CompareBy(Identity())(hs[0], hs[j]) <= 0;
      CompareStringsAntisymmetric(hs[0], hs[0]);
      Some(hs[0])
  }

  function InHomeroom(h: string): Students.Student -> bool
  {
    (s: Students.Student) => s.homeroom == h
  }

  /** `homeroomStudents`: the roster students of the selected homeroom, in
      roster order. */
  function HomeroomStudents(roster: seq<Students.Student>, h: string): (r: seq<Students.Student>)
    ensures IsSubseq(r, roster)
    ensures forall i :: 0 <= i < |r| ==> r[i].homeroom == h
    ensures forall i :: 0 <= i < |roster| && roster[i].homeroom == h ==> roster[i] in r
  {
    FilterIsSubseq(roster, InHomeroom(h));
    FilterMembers(roster, InHomeroom(h));
    Filter(roster, InHomeroom(h))
  }

  // ---------------------------------------------------------------------
  // Figures

  /** One row of the table: a student's rate (tenths), GPA (hundredths) and
      flags. */
  datatype StudentStat = StudentStat(student: Students.Student, attendance: int, gpa: int,
                                     flags: seq<Flags.StudentFlag>)

  function StatOf(d: Flags.Dataset, s: Students.Student): (st: StudentStat)
    requires Flags.WellFormed(d)
    ensures 0 <= st.attendance <= 1000 && 0 <= st.gpa <= 400
  {
    StudentStat(s, Attendance.GetStudentAttendanceRate(d.attendance, s.id), Grades.GetStudentGPA(d.grades, s.id),
                Flags.StudentFlagsIn(Flags.AllFlagsOf(d, d.roster), s.id))
  }

  /** `studentStats`: one row per student of the homeroom, in order. */
  function StudentStats(d: Flags.Dataset, students: seq<Students.Student>): (r: seq<StudentStat>)
    requires Flags.WellFormed(d)
    ensures |r| == |students|
    ensures forall i :: 0 <= i < |r| ==> r[i] == StatOf(d, students[i])
  {
    seq(|students|, i requires 0 <= i < |students| => StatOf(d, students[i]))
  }

  predicate InRange(stats: seq<StudentStat>)
  {
    forall i :: 0 <= i < |stats| ==> 0 <= stats[i].attendance <= 1000 && 0 <= stats[i].gpa <= 400
  }

  function AttendanceOf(): StudentStat -> int
  {
    (st: StudentStat) => st.attendance
  }

  function GpaOf(): StudentStat -> int
  {
    (st: StudentStat) => st.gpa
  }

  /** `avgAttendance`: 0 for an empty homeroom, otherwise the mean rate
      rounded to tenths. */
  function AverageAttendance(stats: seq<StudentStat>): (r: int)
    requires InRange(stats)
    ensures stats == [] ==> r == 0
    ensures stats != [] ==>
              2 * |stats| * r <= 2 * SumOf(stats, AttendanceOf()) + |stats| < 2 * |stats| * r + 2 * |stats|
    ensures 0 <= r <= 1000
  {
    if stats == [] then 0
    else
      SumOfBounds(stats, AttendanceOf(), 0, 1000);
      RoundedMeanWithin(SumOf(stats, AttendanceOf()), |stats|, 1, 0, 1000);
      RoundHalfUpNearest(SumOf(stats, AttendanceOf()), |stats|);
      RoundedMean(SumOf(stats, AttendanceOf()), |stats|, 1)
  }

  /** `avgGPA`: 0 for an empty homeroom, otherwise the mean GPA rounded to
      hundredths. */
  function AverageGpa(stats: seq<StudentStat>): (r: int)
    requires InRange(stats)
    ensures stats == [] ==> r == 0
    ensures stats != [] ==>
              2 * |stats| * r <= 2 * SumOf(stats, GpaOf()) + |stats| < 2 * |stats| * r + 2 * |stats|
    ensures 0 <= r <= 400
  {
    if stats == [] then 0
    else
      SumOfBounds(stats, GpaOf(), 0, 400);
      RoundedMeanWithin(SumOf(stats, GpaOf()), |stats|, 1, 0, 400);
      RoundHalfUpNearest(SumOf(stats, GpaOf()), |stats|);
      RoundedMean(SumOf(stats, GpaOf()), |stats|, 1)
  }

  /** A homeroom where everyone has the same rate averages to that rate. */
  lemma {:induction false} AverageOfEqual(stats: seq<StudentStat>, rate: int)
    requires stats != [] && 0 <= rate <= 1000
    requires forall i :: 0 <= i < |stats| ==> stats[i].attendance == rate && 0 <= stats[i].gpa <= 400
    ensures AverageAttendance(stats) == rate
  {
    SumOfBounds(stats, AttendanceOf(), rate, rate);
    RoundHalfUpExact(rate, |stats|);
  }

  function IsFlagged(): StudentStat -> bool
  {
    (st: StudentStat) => st.flags != []
  }

  /** The positions of the students with at least one flag. */
  function FlaggedPositions(stats: seq<StudentStat>): set<int>
  {
    set i | 0 <= i < |stats| && stats[i].flags != []
  }

  /** `flaggedCount`: the students with at least one flag. */
  function FlaggedCount(stats: seq<StudentStat>): (n: nat)
    ensures n == |FlaggedPositions(stats)|
    ensures n <= |stats|
    ensures n == 0 <==> forall i :: 0 <= i < |stats| ==> stats[i].flags == []
  {
    FilterLengthCountsPositions(stats, IsFlagged());
    assert Positions(stats, IsFlagged()) == FlaggedPositions(stats);
    FilterMembers(stats, IsFlagged());
    |Filter(stats, IsFlagged())|
  }

  // ---------------------------------------------------------------------
  // Colours of the table cells

  /** The colours of the score cells. The rate and GPA cells use the
      profile card's `ProfileCard.AttendanceStatusColor` and
      `ProfileCard.GradeStatus`, whose thresholds they share. Gray marks an
      unknown label; Muted marks a source with no score. */
  datatype Colour = Green | Emerald | Yellow | Red | Gray | Muted

  const KnownLabels: set<string> := {"Above Grade Level", "On Grade Level", "Approaching", "Below"}

  /** `proficiencyColor`: one colour per known label, gray for any other. */
  function ProficiencyColor(prof: string): (c: Colour)
    ensures c == Green <==> prof == "Above Grade Level"
    ensures c == Emerald <==> prof == "On Grade Level"
    ensures c == Yellow <==> prof == "Approaching"
    ensures c == Red <==> prof == "Below"
    ensures c == Gray <==> prof !in KnownLabels
  {
    if prof == "Above Grade Level" then Green
    else if prof == "On Grade Level" then Emerald
    else if prof == "Approaching" then Yellow
    else if prof == "Below" then Red
    else Gray
  }

  /** The colour of a score cell: muted when the student has no latest score
      for the source, otherwise the colour of its label. */
  function ScoreColour(scores: map<string, Assessments.LatestScore>, source: string): (c: Colour)
    ensures c == Muted <==> source !in scores
    ensures source in scores ==> c == ProficiencyColor(scores[source].proficiency)
  {
    if source in scores then ProficiencyColor(scores[source].proficiency) else Muted
  }

  /** A latest score whose record has no label, or an empty one, is shown
      gray; one with a known label never is. */
  lemma UnlabelledScoreIsGray(record: Assessments.AssessmentRecord, source: string)
    ensures var c := ScoreColour(map[source := Assessments.EntryOf(record)], source);
            (record.proficiency.None? || record.proficiency.value == "" ==> c == Gray)
            && (record.proficiency.Some? && record.proficiency.value in KnownLabels ==> c != Gray && c != Muted)
  {
    var e := Assessments.EntryOf(record);
    if record.proficiency.None? || record.proficiency.value == "" {
      assert e.proficiency == "Unknown";
    } else {
      assert e.proficiency == record.proficiency.value;
    }
  }

  // ---------------------------------------------------------------------
  // GPA bands

  datatype Band = BandA | BandB | BandC | BandD | BandF

  /** The band of a GPA in hundredths: 3.5, 2.5, 1.5 and 0.5 are the cuts. */
  function BandOf(gpa: int): (b: Band)
    ensures b == BandA <==> gpa >= 350
    ensures b == BandB <==> 250 <= gpa < 350
    ensures b == BandC <==> 150 <= gpa < 250
    ensures b == BandD <==> 50 <= gpa < 150
    ensures b == BandF <==> gpa < 50
  {
    if gpa >= 350 then BandA
    else if gpa >= 250 then BandB
    else if gpa >= 150 then BandC
    else if gpa >= 50 then BandD
    else BandF
  }

  function BandName(b: Band): string
  {
    match b
    case BandA => "A"
    case BandB => "B"
    case BandC => "C"
    case BandD => "D"
    case BandF => "F"
  }

  const Bands: seq<Band> := [BandA, BandB, BandC, BandD, BandF]

  function BandTest(b: Band): StudentStat -> bool
  {
    (st: StudentStat) => BandOf(st.gpa) == b
  }

  /** The students in a band. */
  function BandCount(stats: seq<StudentStat>, b: Band): nat
  {
    |Filter(stats, BandTest(b))|
  }

  /** Every student falls in exactly one band, so the counts add up to the
      number of students. */
  lemma {:induction false} BandsPartition(stats: seq<StudentStat>)
    ensures BandCount(stats, BandA) + BandCount(stats, BandB) + BandCount(stats, BandC)
            + BandCount(stats, BandD) + BandCount(stats, BandF) == |stats|
  {
    if stats != [] {
      BandsPartition(stats[..|stats| - 1]);
      FilterSnoc(stats, BandTest(BandA));
      FilterSnoc(stats, BandTest(BandB));
      FilterSnoc(stats, BandTest(BandC));
      FilterSnoc(stats, BandTest(BandD));
      FilterSnoc(stats, BandTest(BandF));
    }
  }

  datatype GradeCount = GradeCount(grade: string, count: nat)

  /** `gradeDistribution`: the loop tallies each student into its band; the
      result lists A to F in order with each band's count. */
  method GradeDistribution(stats: seq<StudentStat>) returns (dist: seq<GradeCount>)
    ensures |dist| == |Bands|
    ensures forall k :: 0 <= k < |Bands| ==> dist[k] == GradeCount(BandName(Bands[k]), BandCount(stats, Bands[k]))
  {
    var a, b, c, d, f := 0, 0, 0, 0, 0;
    var i := 0;
    while i < |stats|
      invariant 0 <= i <= |stats|
      invariant a == BandCount(stats[..i], BandA) && b == BandCount(stats[..i], BandB)
      invariant c == BandCount(stats[..i], BandC) && d == BandCount(stats[..i], BandD)
      invariant f == BandCount(stats[..i], BandF)
    {
      var band := BandOf(stats[i].gpa);
      assert stats[..i + 1][..i] == stats[..i];
      FilterSnoc(stats[..i + 1], BandTest(BandA));
      FilterSnoc(stats[..i + 1], BandTest(BandB));
      FilterSnoc(stats[..i + 1], BandTest(BandC));
      FilterSnoc(stats[..i + 1], BandTest(BandD));
      FilterSnoc(stats[..i + 1], BandTest(BandF));
      if band == BandA {
        a := a + 1;
      } else if band == BandB {
        b := b + 1;
      } else if band == BandC {
        c := c + 1;
      } else if band == BandD {
        d := d + 1;
      } else {
        f := f + 1;
      }
      i := i + 1;
    }
    assert stats[..i] == stats;
    dist := [GradeCount("A", a), GradeCount("B", b), GradeCount("C", c), GradeCount("D", d), GradeCount("F", f)];
  }

  /** Clicking a row opens that student's profile. */
  method HandleStudentClick(ctx: Session.AppContext, student: Students.Student)
    modifies ctx
    ensures ctx.selectedStudents == [student] && ctx.route == "/try/profile"
    ensures ctx.searchQuery == old(ctx.searchQuery) && ctx.sidebarOpen == old(ctx.sidebarOpen)
    ensures ctx.showTour == old(ctx.showTour) && ctx.currentView == old(ctx.currentView)
  {
    ctx.selectedStudents := [student];
    ctx.route := "/try/profile";
  }
}
