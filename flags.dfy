// The four flag rules, the flag list they produce for the roster, its
// one-time cache and the queries over it (src/data/flags.ts).

module Flags {
  import opened Common
  import Students
  import Attendance
  import Grades
  import Assessments
  import Discipline

  datatype Severity = High | Medium | Low

  datatype Rule = LowAttendance | FailingGpa | BelowBenchmark | MultipleDiscipline

  function RuleId(rule: Rule): string
  {
    match rule
    case LowAttendance => "FLAG001"
    case FailingGpa => "FLAG002"
    case BelowBenchmark => "FLAG003"
    case MultipleDiscipline => "FLAG004"
  }

  function SeverityOf(rule: Rule): Severity
  {
    match rule
    case LowAttendance => High
    case FailingGpa => High
    case BelowBenchmark => Medium
    case MultipleDiscipline => Low
  }

  /** Position of the rule in the table and in each student's flags. */
  function Rank(rule: Rule): nat
  {
    match rule
    case LowAttendance => 1
    case FailingGpa => 2
    case BelowBenchmark => 3
    case MultipleDiscipline => 4
  }

  datatype FlagRule = FlagRule(id: string, name: string, severity: Severity, criteria: string)

  const AllRules: seq<Rule> := [LowAttendance, FailingGpa, BelowBenchmark, MultipleDiscipline]

  const FlagRules: seq<FlagRule> := [
    FlagRule("FLAG001", "Low Attendance", High, "Attendance rate below 90%"),
    FlagRule("FLAG002", "Failing GPA", High, "GPA below 2.0"),
    FlagRule("FLAG003", "Assessment Below Benchmark", Medium, "iReady score below 420"),
    FlagRule("FLAG004", "Multiple Discipline Records", Low, "2 or more discipline records")
  ]

  /** `getFlagRules`: the table agrees with the rules' ids and severities. */
  function GetFlagRules(): (r: seq<FlagRule>)
    ensures |r| == |AllRules| == 4
    ensures forall i :: 0 <= i < 4 ==> r[i].id == RuleId(AllRules[i]) && r[i].severity == SeverityOf(AllRules[i])
    ensures forall i, j :: 0 <= i < j < 4 ==> r[i].id != r[j].id
  {
    FlagRules
  }

  /** A raised flag. `figure` is the number its message reports: the
      attendance rate in tenths of a percent, the GPA in hundredths, the
      lowest end-of-year iReady score, or the number of discipline records. */
  datatype StudentFlag = StudentFlag(studentId: string, rule: Rule, figure: int, severity: Severity)

  /** The data the rules read, fixed once generated. */
  datatype Dataset = Dataset(
    roster: seq<Students.Student>,
    attendance: seq<Attendance.AttendanceRecord>,
    grades: seq<Grades.GradeRecord>,
    assessments: seq<Assessments.AssessmentRecord>,
    discipline: seq<Discipline.DisciplineRecord>)

  /** Every attendance record is consistent, as the generator guarantees. */
  predicate WellFormed(d: Dataset)
  {
    Attendance.AllValid(d.attendance)
  }

  // ---------------------------------------------------------------------
  // The rules for one student

  const AttendanceThreshold := 900   // 90%, in tenths
  const GpaThreshold := 200          // 2.0, in hundredths
  const IReadyBenchmark := 420
  const DisciplineThreshold := 2

  function EoyIReadyTest(studentId: string): Assessments.AssessmentRecord -> bool
  {
    (r: Assessments.AssessmentRecord) => r.studentId == studentId && StartsWith(r.source, "iready") && r.period == "EOY"
  }

  /** The student's end-of-year iReady records. */
  function LatestIReady(records: seq<Assessments.AssessmentRecord>, studentId: string): (r: seq<Assessments.AssessmentRecord>)
    ensures forall i :: 0 <= i < |r| ==>
              r[i] in records && r[i].studentId == studentId && StartsWith(r[i].source, "iready") && r[i].period == "EOY"
    ensures forall i :: 0 <= i < |records| && EoyIReadyTest(studentId)(records[i]) ==> records[i] in r
  {
    FilterMembers(records, EoyIReadyTest(studentId));
    Filter(records, EoyIReadyTest(studentId))
  }

  predicate SomeBelowBenchmark(rs: seq<Assessments.AssessmentRecord>)
  {
    exists i :: 0 <= i < |rs| && rs[i].score < IReadyBenchmark
  }

  /** `Math.min(...rs.map(r => r.score))` on a non-empty list. */
  function MinScore(rs: seq<Assessments.AssessmentRecord>): (m: int)
    requires rs != []
    ensures exists i :: 0 <= i < |rs| && rs[i].score == m
    ensures forall i :: 0 <= i < |rs| ==> m <= rs[i].score
  {
    if |rs| == 1 then rs[0].score
    else
      var rest := MinScore(rs[1..]);
      assert forall i :: 1 <= i < |rs| ==> rs[i] == rs[1..][i - 1];
      Min(rs[0].score, rest)
  }

  /** What the rules read about one student. */
  datatype Standing = Standing(
    rate: int,
    gpa: int,
    latest: seq<Assessments.AssessmentRecord>,
    disciplineCount: int)

  function StandingOf(d: Dataset, studentId: string): (st: Standing)
    requires WellFormed(d)
  {
    Standing(
      Attendance.GetStudentAttendanceRate(d.attendance, studentId),
      Grades.GetStudentGPA(d.grades, studentId),
      LatestIReady(d.assessments, studentId),
      Discipline.GetStudentDisciplineCount(d.discipline, studentId))
  }

  function Raise(cond: bool, flag: StudentFlag): seq<StudentFlag>
  {
    if cond then [flag] else []
  }

  /** The flags the four rules raise for one student, in rule order. */
  function FlagsFrom(studentId: string, st: Standing): seq<StudentFlag>
  {
    Raise(st.rate < AttendanceThreshold, StudentFlag(studentId, LowAttendance, st.rate, High))
    + Raise(st.gpa < GpaThreshold, StudentFlag(studentId, FailingGpa, st.gpa, High))
    + Raise(SomeBelowBenchmark(st.latest),
            StudentFlag(studentId, BelowBenchmark, if st.latest == [] then 0 else MinScore(st.latest), Medium))
    + Raise(st.disciplineCount >= DisciplineThreshold, StudentFlag(studentId, MultipleDiscipline, st.disciplineCount, Low))
  }

  function FlagsFor(d: Dataset, s: Students.Student): seq<StudentFlag>
    requires WellFormed(d)
  {
    FlagsFrom(s.id, StandingOf(d, s.id))
  }

  predicate HasRule(flags: seq<StudentFlag>, rule: Rule)
  {
    exists i :: 0 <= i < |flags| && flags[i].rule == rule
  }

  /** Flags of one student, each with its rule's severity, in strict rule
      order. */
  predicate Shaped(flags: seq<StudentFlag>, studentId: string)
  {
    && (forall i :: 0 <= i < |flags| ==> flags[i].studentId == studentId && flags[i].severity == SeverityOf(flags[i].rule))
    && (forall i, j :: 0 <= i < j < |flags| ==> Rank(flags[i].rule) < Rank(flags[j].rule))
  }

  predicate RanksAtMost(flags: seq<StudentFlag>, bound: nat)
  {
    forall i :: 0 <= i < |flags| ==> Rank(flags[i].rule) <= bound
  }

  lemma RaiseStep(flags: seq<StudentFlag>, studentId: string, cond: bool, flag: StudentFlag)
    requires Shaped(flags, studentId) && RanksAtMost(flags, Rank(flag.rule) - 1)
    requires flag.studentId == studentId && flag.severity == SeverityOf(flag.rule)
    ensures Shaped(flags + Raise(cond, flag), studentId) && RanksAtMost(flags + Raise(cond, flag), Rank(flag.rule))
  {
    if !cond { assert flags + Raise(cond, flag) == flags; }
  }

  /** The flags raised for a student all carry the student's id and the
      rule's severity, and appear in strict rule order, so no rule is
      raised twice. */
  lemma FlagsFromShape(studentId: string, st: Standing)
    ensures |FlagsFrom(studentId, st)| <= 4 && Shaped(FlagsFrom(studentId, st), studentId)
  {
    var a := Raise(st.rate < AttendanceThreshold, StudentFlag(studentId, LowAttendance, st.rate, High));
    var b := Raise(st.gpa < GpaThreshold, StudentFlag(studentId, FailingGpa, st.gpa, High));
    var c := Raise(SomeBelowBenchmark(st.latest),
                   StudentFlag(studentId, BelowBenchmark, if st.latest == [] then 0 else MinScore(st.latest), Medium));
    var e := Raise(st.disciplineCount >= DisciplineThreshold, StudentFlag(studentId, MultipleDiscipline, st.disciplineCount, Low));
    assert FlagsFrom(studentId, st) == [] + a + b + c + e;
    RaiseStep([], studentId, st.rate < AttendanceThreshold, StudentFlag(studentId, LowAttendance, st.rate, High));
    RaiseStep([] + a, studentId, st.gpa < GpaThreshold, StudentFlag(studentId, FailingGpa, st.gpa, High));
    RaiseStep([] + a + b, studentId, SomeBelowBenchmark(st.latest),
              StudentFlag(studentId, BelowBenchmark, if st.latest == [] then 0 else MinScore(st.latest), Medium));
    RaiseStep([] + a + b + c, studentId, st.disciplineCount >= DisciplineThreshold,
              StudentFlag(studentId, MultipleDiscipline, st.disciplineCount, Low));
  }

  /** Each rule fires exactly when its condition holds: attendance below
      90%, GPA below 2.0, some end-of-year iReady score below 420, two or
      more discipline records. */
  lemma FlagsFromRules(studentId: string, st: Standing)
    ensures var flags := FlagsFrom(studentId, st);
            (HasRule(flags, LowAttendance) <==> st.rate < 900)
            && (HasRule(flags, FailingGpa) <==> st.gpa < 200)
            && (HasRule(flags, BelowBenchmark) <==> exists i :: 0 <= i < |st.latest| && st.latest[i].score < 420)
            && (HasRule(flags, MultipleDiscipline) <==> st.disciplineCount >= 2)
  {
    var fa := StudentFlag(studentId, LowAttendance, st.rate, High);
    var fb := StudentFlag(studentId, FailingGpa, st.gpa, High);
    var fc := StudentFlag(studentId, BelowBenchmark, if st.latest == [] then 0 else MinScore(st.latest), Medium);
    var fe := StudentFlag(studentId, MultipleDiscipline, st.disciplineCount, Low);
    var a := Raise(st.rate < AttendanceThreshold, fa);
    var b := Raise(st.gpa < GpaThreshold, fb);
    var c := Raise(SomeBelowBenchmark(st.latest), fc);
    var e := Raise(st.disciplineCount >= DisciplineThreshold, fe);
    assert FlagsFrom(studentId, st) == a + b + c + e;
    HasRuleRaised(st.rate < AttendanceThreshold, fa, st.gpa < GpaThreshold, fb, SomeBelowBenchmark(st.latest), fc,
                  st.disciplineCount >= DisciplineThreshold, fe, LowAttendance);
    HasRuleRaised(st.rate < AttendanceThreshold, fa, st.gpa < GpaThreshold, fb, SomeBelowBenchmark(st.latest), fc,
                  st.disciplineCount >= DisciplineThreshold, fe, FailingGpa);
    HasRuleRaised(st.rate < AttendanceThreshold, fa, st.gpa < GpaThreshold, fb, SomeBelowBenchmark(st.latest), fc,
                  st.disciplineCount >= DisciplineThreshold, fe, BelowBenchmark);
    HasRuleRaised(st.rate < AttendanceThreshold, fa, st.gpa < GpaThreshold, fb, SomeBelowBenchmark(st.latest), fc,
                  st.disciplineCount >= DisciplineThreshold, fe, MultipleDiscipline);
  }

  lemma HasRuleRaised(ca: bool, fa: StudentFlag, cb: bool, fb: StudentFlag, cc: bool, fc: StudentFlag,
                      ce: bool, fe: StudentFlag, rule: Rule)
    ensures HasRule(Raise(ca, fa) + Raise(cb, fb) + Raise(cc, fc) + Raise(ce, fe), rule)
            <==> (ca && fa.rule == rule) || (cb && fb.rule == rule) || (cc && fc.rule == rule) || (ce && fe.rule == rule)
  {
    HasRuleFour(Raise(ca, fa), Raise(cb, fb), Raise(cc, fc), Raise(ce, fe), rule);
    HasRuleRaise(ca, fa, rule);
    HasRuleRaise(cb, fb, rule);
    HasRuleRaise(cc, fc, rule);
    HasRuleRaise(ce, fe, rule);
  }

  lemma HasRuleRaise(cond: bool, flag: StudentFlag, rule: Rule)
    ensures HasRule(Raise(cond, flag), rule) <==> cond && flag.rule == rule
  {
    if cond { assert Raise(cond, flag)[0] == flag; }
  }

  lemma HasRuleFour(a: seq<StudentFlag>, b: seq<StudentFlag>, c: seq<StudentFlag>, e: seq<StudentFlag>, rule: Rule)
    ensures HasRule(a + b + c + e, rule) <==> HasRule(a, rule) || HasRule(b, rule) || HasRule(c, rule) || HasRule(e, rule)
  {
    HasRuleAppend(a, b, rule);
    HasRuleAppend(a + b, c, rule);
    HasRuleAppend(a + b + c, e, rule);
  }

  /** The benchmark flag reports the lowest end-of-year iReady score, which
      is below 420. */
  lemma BenchmarkFigure(studentId: string, st: Standing, i: int)
    requires 0 <= i < |FlagsFrom(studentId, st)| && FlagsFrom(studentId, st)[i].rule == BelowBenchmark
    ensures st.latest != [] && FlagsFrom(studentId, st)[i].figure == MinScore(st.latest) < 420
  {
    var fc := StudentFlag(studentId, BelowBenchmark, if st.latest == [] then 0 else MinScore(st.latest), Medium);
    var a := Raise(st.rate < AttendanceThreshold, StudentFlag(studentId, LowAttendance, st.rate, High));
    var b := Raise(st.gpa < GpaThreshold, StudentFlag(studentId, FailingGpa, st.gpa, High));
    var c := Raise(SomeBelowBenchmark(st.latest), fc);
    var e := Raise(st.disciplineCount >= DisciplineThreshold, StudentFlag(studentId, MultipleDiscipline, st.disciplineCount, Low));
    var ab := a + b;
    var abc := ab + c;
    var flags := abc + e;
    assert FlagsFrom(studentId, st) == flags;
    assert |ab| <= i < |abc|;
    assert flags[i] == c[i - |ab|];
    var k :| 0 <= k < |st.latest| && st.latest[k].score < IReadyBenchmark;
    assert MinScore(st.latest) <= st.latest[k].score;
  }

  lemma HasRuleAppend(a: seq<StudentFlag>, b: seq<StudentFlag>, rule: Rule)
    ensures HasRule(a + b, rule) <==> HasRule(a, rule) || HasRule(b, rule)
  {
    if HasRule(a, rule) {
      var i :| 0 <= i < |a| && a[i].rule == rule;
      assert (a + b)[i] == a[i];
    }
    if HasRule(a + b, rule) {
      var i :| 0 <= i < |a + b| && (a + b)[i].rule == rule;
      if i >= |a| { assert b[i - |a|].rule == rule; } else { assert a[i].rule == rule; }
    }
    if HasRule(b, rule) {
      var i :| 0 <= i < |b| && b[i].rule == rule;
      assert (a + b)[|a| + i] == b[i];
    }
  }

  /** The standing read from the data: the latest-iReady list is exactly
      the student's end-of-year iReady records. */
  lemma StandingOfData(d: Dataset, studentId: string)
    requires WellFormed(d)
    ensures var st := StandingOf(d, studentId);
            (exists i :: 0 <= i < |st.latest| && st.latest[i].score < 420)
            <==> exists k :: 0 <= k < |d.assessments| && EoyIReadyTest(studentId)(d.assessments[k]) && d.assessments[k].score < 420
  {
    assert StandingOf(d, studentId).latest == LatestIReady(d.assessments, studentId);
    LatestIReadyBelow(d.assessments, studentId);
  }

  /** Some end-of-year iReady record of the student is below 420 exactly
      when the filtered list holds one. */
  lemma LatestIReadyBelow(records: seq<Assessments.AssessmentRecord>, studentId: string)
    ensures var latest := LatestIReady(records, studentId);
            (exists i :: 0 <= i < |latest| && latest[i].score < 420)
            <==> exists k :: 0 <= k < |records| && EoyIReadyTest(studentId)(records[k]) && records[k].score < 420
  {
    var latest := LatestIReady(records, studentId);
    if exists k :: 0 <= k < |records| && EoyIReadyTest(studentId)(records[k]) && records[k].score < 420 {
      var k :| 0 <= k < |records| && EoyIReadyTest(studentId)(records[k]) && records[k].score < 420;
      var i :| 0 <= i < |latest| && latest[i] == records[k];
    }
    if exists i :: 0 <= i < |latest| && latest[i].score < 420 {
      var i :| 0 <= i < |latest| && latest[i].score < 420;
      var k :| 0 <= k < |records| && records[k] == latest[i];
    }
  }


  /** The rules read off the data: each flag is raised exactly when the
      source's condition holds on the student's records. */
  lemma FlagsForRules(d: Dataset, s: Students.Student)
    requires WellFormed(d)
    ensures var flags := FlagsFor(d, s);
            (HasRule(flags, LowAttendance) <==> Attendance.GetStudentAttendanceRate(d.attendance, s.id) < 900)
            && (HasRule(flags, FailingGpa) <==> Grades.GetStudentGPA(d.grades, s.id) < 200)
            && (HasRule(flags, BelowBenchmark) <==>
                  exists k :: 0 <= k < |d.assessments| && EoyIReadyTest(s.id)(d.assessments[k]) && d.assessments[k].score < 420)
            && (HasRule(flags, MultipleDiscipline) <==> Discipline.GetStudentDisciplineCount(d.discipline, s.id) >= 2)
  {
    FlagsFromRules(s.id, StandingOf(d, s.id));
    StandingOfData(d, s.id);
  }

  // ---------------------------------------------------------------------
  // The whole flag list

  /** The standing of every student, read from the data. */
  function StandingsIn(d: Dataset): string -> Standing
    requires WellFormed(d)
  {
    (studentId: string) => StandingOf(d, studentId)
  }

  /** The flags of the given students, student by student, for any source of
      standings. */
  function AllFlagsFrom(students: seq<Students.Student>, standing: string -> Standing): seq<StudentFlag>
  {
    if students == [] then []
    else
      var s := students[|students| - 1];
      AllFlagsFrom(students[..|students| - 1], standing) + FlagsFrom(s.id, standing(s.id))
  }

  /** The flags of the given students, read from the data. */
  function AllFlagsOf(d: Dataset, students: seq<Students.Student>): seq<StudentFlag>
    requires WellFormed(d)
  {
    AllFlagsFrom(students, StandingsIn(d))
  }

  /** What `computeAllFlags` reads about one student. */
  method ReadStanding(d: Dataset, studentId: string) returns (st: Standing)
    requires WellFormed(d)
    ensures st == StandingsIn(d)(studentId)
  {
    var attendanceRate := Attendance.GetStudentAttendanceRate(d.attendance, studentId);
    var gpa := Grades.GetStudentGPA(d.grades, studentId);
    var latest := LatestIReady(d.assessments, studentId);
    var disciplineCount := Discipline.GetStudentDisciplineCount(d.discipline, studentId);
    st := Standing(attendanceRate, gpa, latest, disciplineCount);
  }

  /** One student's pass of `computeAllFlags`: each rule in turn pushes its
      flag when its condition holds. */
  method PushStudentFlags(studentId: string, st: Standing, flags: seq<StudentFlag>) returns (out: seq<StudentFlag>)
    ensures out == flags + FlagsFrom(studentId, st)
  {
    out := flags;
    if st.rate < AttendanceThreshold {
      out := out + [StudentFlag(studentId, LowAttendance, st.rate, High)];
    }
    if st.gpa < GpaThreshold {
      out := out + [StudentFlag(studentId, FailingGpa, st.gpa, High)];
    }
    if SomeBelowBenchmark(st.latest) {
      out := out + [StudentFlag(studentId, BelowBenchmark, MinScore(st.latest), Medium)];
    }
    if st.disciplineCount >= DisciplineThreshold {
      out := out + [StudentFlag(studentId, MultipleDiscipline, st.disciplineCount, Low)];
    }
    PushedFlags(flags, out, studentId, st);
  }

  /** The four conditional pushes append exactly FlagsFrom. */
  lemma PushedFlags(flags: seq<StudentFlag>, out: seq<StudentFlag>, studentId: string, st: Standing)
    requires out == flags
                    + (if st.rate < AttendanceThreshold then [StudentFlag(studentId, LowAttendance, st.rate, High)] else [])
                    + (if st.gpa < GpaThreshold then [StudentFlag(studentId, FailingGpa, st.gpa, High)] else [])
                    + (if SomeBelowBenchmark(st.latest) then [StudentFlag(studentId, BelowBenchmark, MinScore(st.latest), Medium)] else [])
                    + (if st.disciplineCount >= DisciplineThreshold then [StudentFlag(studentId, MultipleDiscipline, st.disciplineCount, Low)] else [])
    ensures out == flags + FlagsFrom(studentId, st)
  {
  }

  lemma AllFlagsFromSnoc(students: seq<Students.Student>, standing: string -> Standing, i: int)
    requires 0 <= i < |students|
    ensures AllFlagsFrom(students[..i + 1], standing) == AllFlagsFrom(students[..i], standing) + FlagsFrom(students[i].id, standing(students[i].id))
  {
    assert students[..i + 1][..i] == students[..i];
  }

  /** `computeAllFlags`: the rules applied to every roster student in order. */
  method ComputeAllFlags(d: Dataset) returns (flags: seq<StudentFlag>)
    requires WellFormed(d)
    ensures flags == AllFlagsOf(d, d.roster)
  {
    flags := [];
    var i := 0;
    while i < |d.roster|
      invariant 0 <= i <= |d.roster|
      invariant flags == AllFlagsOf(d, d.roster[..i])
    {
      var st := ReadStanding(d, d.roster[i].id);
      var next := PushStudentFlags(d.roster[i].id, st, flags);
      ComputeStep(d, i, flags, st, next);
      flags, i := next, i + 1;
    }
    assert d.roster[..i] == d.roster;
  }

  lemma ComputeStep(d: Dataset, i: int, flags: seq<StudentFlag>, st: Standing, next: seq<StudentFlag>)
    requires WellFormed(d) && 0 <= i < |d.roster|
    requires flags == AllFlagsOf(d, d.roster[..i]) && st == StandingsIn(d)(d.roster[i].id)
    requires next == flags + FlagsFrom(d.roster[i].id, st)
    ensures next == AllFlagsOf(d, d.roster[..i + 1])
  {
    AllFlagsFromSnoc(d.roster, StandingsIn(d), i);
  }

  /** The student ids of a flag list, in order. */
  function FlagIds(flags: seq<StudentFlag>): (r: seq<string>)
    ensures |r| == |flags| && forall i :: 0 <= i < |flags| ==> r[i] == flags[i].studentId
  {
    seq(|flags|, i requires 0 <= i < |flags| => flags[i].studentId)
  }

  /** Every flag of the list belongs to one of the given students. */
  lemma {:induction false} AllFlagsOwners(students: seq<Students.Student>, standing: string -> Standing)
    ensures forall i :: 0 <= i < |AllFlagsFrom(students, standing)| ==>
              AllFlagsFrom(students, standing)[i].studentId in Students.Ids(students)
  {
    if students != [] {
      var front, s := students[..|students| - 1], students[|students| - 1];
      assert front + [s] == students;
      AllFlagsOwners(front, standing);
      FlagsFromShape(s.id, standing(s.id));
      IdsSnoc(front, s);
      OwnersAppend(AllFlagsFrom(front, standing), FlagsFrom(s.id, standing(s.id)), Students.Ids(front), s.id);
    }
  }

  lemma OwnersAppend(a: seq<StudentFlag>, b: seq<StudentFlag>, ids: seq<string>, id: string)
    requires forall i :: 0 <= i < |a| ==> a[i].studentId in ids
    requires forall i :: 0 <= i < |b| ==> b[i].studentId == id
    ensures forall i :: 0 <= i < |a + b| ==> (a + b)[i].studentId in ids + [id]
  {
    forall i | 0 <= i < |a + b| ensures (a + b)[i].studentId in ids + [id] {
      if i < |a| {
        assert (a + b)[i] == a[i];
      } else {
        assert (a + b)[i] == b[i - |a|];
      }
    }
  }

  // ---------------------------------------------------------------------
  // Queries over the flag list

  function FlagOwner(studentId: string): StudentFlag -> bool
  {
    (f: StudentFlag) => f.studentId == studentId
  }

  /** `getStudentFlags`: the flags carrying that id, in list order. */
  function StudentFlagsIn(flags: seq<StudentFlag>, studentId: string): (r: seq<StudentFlag>)
    ensures IsSubseq(r, flags)
    ensures forall i :: 0 <= i < |r| ==> r[i].studentId == studentId
    ensures r == [] <==> studentId !in FlagIds(flags)
  {
    FilterIsSubseq(flags, FlagOwner(studentId));
    FilterMembers(flags, FlagOwner(studentId));
    var r := Filter(flags, FlagOwner(studentId));
    assert r != [] ==> r[0] in flags;
    assert studentId in FlagIds(flags) ==> r != [] by {
      if studentId in FlagIds(flags) {
        var k :| 0 <= k < |flags| && FlagIds(flags)[k] == studentId;
        assert flags[k] in r;
      }
    }
    r
  }

  lemma FlagsFromOwned(studentId: string, st: Standing, owner: string)
    ensures Filter(FlagsFrom(studentId, st), FlagOwner(owner)) == if studentId == owner then FlagsFrom(studentId, st) else []
  {
    FlagsFromShape(studentId, st);
    if studentId == owner {
      FilterAll(FlagsFrom(studentId, st), FlagOwner(owner));
    } else {
      FilterNone(FlagsFrom(studentId, st), FlagOwner(owner));
    }
  }

  /** Over a roster with distinct ids, a roster student's flags are exactly
      the flags the rules raise for that student. */
  lemma {:induction false} StudentFlagsOfRosterStudent(students: seq<Students.Student>, standing: string -> Standing, k: int)
    requires NoDup(Students.Ids(students)) && 0 <= k < |students|
    ensures StudentFlagsIn(AllFlagsFrom(students, standing), students[k].id) == FlagsFrom(students[k].id, standing(students[k].id))
  {
    var front, s := students[..|students| - 1], students[|students| - 1];
    var id := students[k].id;
    var a, b := AllFlagsFrom(front, standing), FlagsFrom(s.id, standing(s.id));
    assert AllFlagsFrom(students, standing) == a + b;
    FilterAppend(a, b, FlagOwner(id));
    FlagsFromOwned(s.id, standing(s.id), id);
    if k == |students| - 1 {
      LastIdFresh(students);
      StudentFlagsOfStranger(front, standing, id);
    } else {
      EarlierIdDistinct(students, k);
      StudentFlagsOfRosterStudent(front, standing, k);
    }
  }

  lemma LastIdFresh(students: seq<Students.Student>)
    requires NoDup(Students.Ids(students)) && students != []
    ensures students[|students| - 1].id !in Students.Ids(students[..|students| - 1])
    ensures NoDup(Students.Ids(students[..|students| - 1]))
  {
    var front := students[..|students| - 1];
    assert Students.Ids(front) == Students.Ids(students)[..|students| - 1];
    forall j | 0 <= j < |front| ensures Students.Ids(front)[j] != students[|students| - 1].id {
      assert Students.Ids(front)[j] == Students.Ids(students)[j];
    }
  }

  lemma EarlierIdDistinct(students: seq<Students.Student>, k: int)
    requires NoDup(Students.Ids(students)) && 0 <= k < |students| - 1
    ensures students[k].id != students[|students| - 1].id
    ensures NoDup(Students.Ids(students[..|students| - 1])) && students[..|students| - 1][k] == students[k]
  {
    assert Students.Ids(students)[k] != Students.Ids(students)[|students| - 1];
    assert Students.Ids(students[..|students| - 1]) == Students.Ids(students)[..|students| - 1];
  }

  /** An id that is not on the roster has no flags. */
  lemma {:induction false} StudentFlagsOfStranger(students: seq<Students.Student>, standing: string -> Standing, studentId: string)
    requires studentId !in Students.Ids(students)
    ensures StudentFlagsIn(AllFlagsFrom(students, standing), studentId) == []
  {
    if students != [] {
      var front, s := students[..|students| - 1], students[|students| - 1];
      assert Students.Ids(students)[|students| - 1] == s.id;
      assert forall i :: 0 <= i < |front| ==> Students.Ids(front)[i] == Students.Ids(students)[i];
      StudentFlagsOfStranger(front, standing, studentId);
      FilterAppend(AllFlagsFrom(front, standing), FlagsFrom(s.id, standing(s.id)), FlagOwner(studentId));
      FlagsFromOwned(s.id, standing(s.id), studentId);
    }
  }

  /** A student is flagged when the rules raise at least one flag. */
  function IsFlaggedBy(standing: string -> Standing): Students.Student -> bool
  {
    (s: Students.Student) => FlagsFrom(s.id, standing(s.id)) != []
  }

  /** The distinct flagged ids are the ids of the flagged students, in
      roster order. */
  lemma {:induction false} FlaggedIdsInRosterOrder(students: seq<Students.Student>, standing: string -> Standing)
    requires NoDup(Students.Ids(students))
    ensures Dedup(FlagIds(AllFlagsFrom(students, standing))) == Students.Ids(Filter(students, IsFlaggedBy(standing)))
  {
    if students != [] {
      var front := students[..|students| - 1];
      LastIdFresh(students);
      FlaggedIdsInRosterOrder(front, standing);
      FlaggedIdsStep(students, standing);
    }
  }

  lemma FlaggedIdsStep(students: seq<Students.Student>, standing: string -> Standing)
    requires students != []
    requires students[|students| - 1].id !in Students.Ids(students[..|students| - 1])
    requires Dedup(FlagIds(AllFlagsFrom(students[..|students| - 1], standing)))
             == Students.Ids(Filter(students[..|students| - 1], IsFlaggedBy(standing)))
    ensures Dedup(FlagIds(AllFlagsFrom(students, standing))) == Students.Ids(Filter(students, IsFlaggedBy(standing)))
  {
    var front, s := students[..|students| - 1], students[|students| - 1];
    var a := AllFlagsFrom(front, standing);
    var b := FlagsFrom(s.id, standing(s.id));
    var flagged := Filter(front, IsFlaggedBy(standing));
    AllFlagsFromLast(students, standing);
    NewOwner(front, s.id, standing);
    OwnRun(s.id, standing(s.id));
    DedupAppendRun(FlagIds(a), FlagIds(b), s.id);
    FilterSnoc(students, IsFlaggedBy(standing));
    IdsSnoc(flagged, s);
  }

  lemma AllFlagsFromLast(students: seq<Students.Student>, standing: string -> Standing)
    requires students != []
    ensures var s := students[|students| - 1];
            FlagIds(AllFlagsFrom(students, standing))
            == FlagIds(AllFlagsFrom(students[..|students| - 1], standing)) + FlagIds(FlagsFrom(s.id, standing(s.id)))
  {
    var s := students[|students| - 1];
    FlagIdsAppend(AllFlagsFrom(students[..|students| - 1], standing), FlagsFrom(s.id, standing(s.id)));
  }

  lemma FlagIdsAppend(a: seq<StudentFlag>, b: seq<StudentFlag>)
    ensures FlagIds(a + b) == FlagIds(a) + FlagIds(b)
  {
    assert forall i :: 0 <= i < |a| + |b| ==> (FlagIds(a) + FlagIds(b))[i] == (a + b)[i].studentId;
  }

  lemma NewOwner(front: seq<Students.Student>, studentId: string, standing: string -> Standing)
    requires studentId !in Students.Ids(front)
    ensures studentId !in FlagIds(AllFlagsFrom(front, standing))
  {
    AllFlagsOwners(front, standing);
  }

  lemma OwnRun(studentId: string, st: Standing)
    ensures forall i :: 0 <= i < |FlagIds(FlagsFrom(studentId, st))| ==> FlagIds(FlagsFrom(studentId, st))[i] == studentId
  {
    FlagsFromShape(studentId, st);
  }

  lemma IdsSnoc(students: seq<Students.Student>, s: Students.Student)
    ensures Students.Ids(students + [s]) == Students.Ids(students) + [s.id]
  {
  }

  /** One entry of `getAllFlaggedStudents`: the roster entry (absent when the
      id is not on the roster) and that student's flags. */
  datatype FlaggedStudent = FlaggedStudent(student: Option<Students.Student>, flags: seq<StudentFlag>)

  /** `getAllFlaggedStudents`: each distinct flagged id once, in order of its
      first flag, with its roster entry and its flags, which are never
      empty. */
  function FlaggedStudentsIn(roster: seq<Students.Student>, flags: seq<StudentFlag>): (r: seq<FlaggedStudent>)
    ensures var ids := Dedup(FlagIds(flags));
            |r| == |ids|
            && forall i :: 0 <= i < |r| ==> r[i].flags == StudentFlagsIn(flags, ids[i]) && r[i].flags != []
                                            && r[i].student == Students.GetStudentById(roster, ids[i])
  {
    var ids := Dedup(FlagIds(flags));
    seq(|ids|, i requires 0 <= i < |ids| =>
      FlaggedStudent(Students.GetStudentById(roster, ids[i]), StudentFlagsIn(flags, ids[i])))
  }

  /** `getFlaggedStudentCount`: the size of the set of flagged ids, which is
      the number of distinct flagged ids. */
  function FlaggedCountIn(flags: seq<StudentFlag>): (n: nat)
    ensures n == |Dedup(FlagIds(flags))|
  {
    DedupCardinality(FlagIds(flags));
    |set id | id in FlagIds(flags)|
  }

  /** With distinct ids, looking up a roster student's id finds that student. */
  lemma RosterLookup(roster: seq<Students.Student>, k: int)
    requires NoDup(Students.Ids(roster)) && 0 <= k < |roster|
    ensures Students.GetStudentById(roster, roster[k].id) == Some(roster[k])
  {
    RosterLookupAt(roster, roster[k].id, k);
  }

  lemma {:induction false} RosterLookupAt(roster: seq<Students.Student>, id: string, k: int)
    requires NoDup(Students.Ids(roster)) && 0 <= k < |roster| && roster[k].id == id
    ensures Students.GetStudentById(roster, id) == Some(roster[k])
  {
    if k > 0 {
      assert Students.Ids(roster)[0] != Students.Ids(roster)[k];
      assert Students.Ids(roster[1..]) == Students.Ids(roster)[1..];
      RosterLookupAt(roster[1..], id, k - 1);
    }
  }

  /** Over a roster with distinct ids, the flagged students are exactly the
      roster students with a flag, in roster order, each found on the
      roster, each with the flags the rules raise for them, and there are
      as many of them as the flagged count. */
  lemma FlaggedStudentsOfRoster(roster: seq<Students.Student>, standing: string -> Standing)
    requires NoDup(Students.Ids(roster))
    ensures var flags := AllFlagsFrom(roster, standing);
            var flagged := Filter(roster, IsFlaggedBy(standing));
            var r := FlaggedStudentsIn(roster, flags);
            |r| == |flagged| == FlaggedCountIn(flags)
            && forall i :: 0 <= i < |r| ==>
                 r[i].student == Some(flagged[i]) && r[i].flags == FlagsFrom(flagged[i].id, standing(flagged[i].id))
  {
    var flags := AllFlagsFrom(roster, standing);
    var flagged := Filter(roster, IsFlaggedBy(standing));
    FlaggedIdsInRosterOrder(roster, standing);
    FilterMembers(roster, IsFlaggedBy(standing));
    var r := FlaggedStudentsIn(roster, flags);
    forall i | 0 <= i < |r|
      ensures r[i].student == Some(flagged[i]) && r[i].flags == FlagsFrom(flagged[i].id, standing(flagged[i].id))
    {
      assert flagged[i] in roster;
      var k :| 0 <= k < |roster| && roster[k] == flagged[i];
      assert Students.Ids(flagged)[i] == flagged[i].id;
      StudentFlagsOfRosterStudent(roster, standing, k);
      RosterLookup(roster, k);
    }
  }

  // ---------------------------------------------------------------------
  // Counts by severity

  datatype SeverityCounts = SeverityCounts(high: nat, medium: nat, low: nat)

  function SeverityTest(severity: Severity): StudentFlag -> bool
  {
    (f: StudentFlag) => f.severity == severity
  }

  /** `getFlagCountBySeverity`: the three counts partition the list. */
  function SeverityCountsIn(flags: seq<StudentFlag>): (r: SeverityCounts)
    ensures r.high + r.medium + r.low == |flags|
  {
    SeverityPartition(flags);
    SeverityCounts(|Filter(flags, SeverityTest(High))|, |Filter(flags, SeverityTest(Medium))|, |Filter(flags, SeverityTest(Low))|)
  }

  lemma {:induction false} SeverityPartition(flags: seq<StudentFlag>)
    ensures |Filter(flags, SeverityTest(High))| + |Filter(flags, SeverityTest(Medium))| + |Filter(flags, SeverityTest(Low))| == |flags|
  {
    if flags != [] {
      SeverityPartition(flags[..|flags| - 1]);
      FilterSnoc(flags, SeverityTest(High));
      FilterSnoc(flags, SeverityTest(Medium));
      FilterSnoc(flags, SeverityTest(Low));
    }
  }

  // ---------------------------------------------------------------------
  // The module-level cache

  /** `_cachedFlags` with the data it is computed from. */
  class FlagCache {
    const data: Dataset
    var cached: Option<seq<StudentFlag>>

    ghost predicate Valid()
      reads this
    {
      WellFormed(data) && (cached.Some? ==> cached.value == AllFlagsOf(data, data.roster))
    }

    constructor(data: Dataset)
      requires WellFormed(data)
      ensures this.data == data && cached == None && Valid()
    {
      this.data := data;
      cached := None;
    }

    /** `getAllFlags`: computes on the first call and returns the same list
        on every later one. */
    method GetAllFlags() returns (flags: seq<StudentFlag>)
      requires Valid()
      modifies this
      ensures Valid() && cached == Some(flags)
      ensures flags == AllFlagsOf(data, data.roster)
      ensures old(cached).Some? ==> cached == old(cached)
    {
      if cached.None? {
        var computed := ComputeAllFlags(data);
        cached := Some(computed);
      }
      flags := cached.value;
    }

    /** `getStudentFlags`. */
    method GetStudentFlags(studentId: string) returns (r: seq<StudentFlag>)
      requires Valid()
      modifies this
      ensures Valid() && cached == Some(AllFlagsOf(data, data.roster))
      ensures r == StudentFlagsIn(AllFlagsOf(data, data.roster), studentId)
    {
      var flags := GetAllFlags();
      r := StudentFlagsIn(flags, studentId);
    }

    /** `getAllFlaggedStudents`. */
    method GetAllFlaggedStudents() returns (r: seq<FlaggedStudent>)
      requires Valid()
      modifies this
      ensures Valid() && cached == Some(AllFlagsOf(data, data.roster))
      ensures r == FlaggedStudentsIn(data.roster, AllFlagsOf(data, data.roster))
    {
      var flags := GetAllFlags();
      r := FlaggedStudentsIn(data.roster, flags);
    }

    /** `getFlaggedStudentCount`. */
    method GetFlaggedStudentCount() returns (n: nat)
      requires Valid()
      modifies this
      ensures Valid() && cached == Some(AllFlagsOf(data, data.roster))
      ensures n == FlaggedCountIn(AllFlagsOf(data, data.roster))
    {
      var flags := GetAllFlags();
      n := FlaggedCountIn(flags);
    }

    /** `getFlagCountBySeverity`. */
    method GetFlagCountBySeverity() returns (r: SeverityCounts)
      requires Valid()
      modifies this
      ensures Valid() && cached == Some(AllFlagsOf(data, data.roster))
      ensures r == SeverityCountsIn(AllFlagsOf(data, data.roster))
    {
      var flags := GetAllFlags();
      r := SeverityCountsIn(flags);
    }
  }
}
