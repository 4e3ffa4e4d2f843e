// The exam analytics page (src/mockup/MockupExamAnalytics.tsx): for one
// assessment source and one grade level (or the whole school), the
// proficiency tallies of the latest period, the average score of each
// period and grade level, the ranking of students by their latest score,
// and the growth from the first period to the latest.

module ExamAnalytics {
  import opened Common
  import opened Sorting
  import Students
  import Assessments
  import GradeAnalytics

  // ---------------------------------------------------------------------
  // Periods

  /** `sourceInfo[source].periods`: BOY, MOY, EOY for iReady and PM1, PM2,
      PM3 for FAST. */
  function Periods(source: string): (r: seq<string>)
    ensures |r| == 3
    ensures Assessments.IsIReady(source) ==> r == ["BOY", "MOY", "EOY"]
    ensures !Assessments.IsIReady(source) ==> r == ["PM1", "PM2", "PM3"]
  {
    Assessments.PeriodsOf(source)
  }

  /** `firstPeriod`: the first of the source's periods. */
  function FirstPeriod(source: string): string
  {
    Periods(source)[0]
  }

  /** The period the page calls latest is the last of the source's periods,
      and the first period differs from it. */
  lemma LatestIsLastPeriod(source: string)
    ensures Assessments.LatestPeriod(source) == Periods(source)[|Periods(source)| - 1]
    ensures FirstPeriod(source) != Assessments.LatestPeriod(source)
  {
  }

  // ---------------------------------------------------------------------
  // Records of the target students

  predicate Targets(targets: seq<Students.Student>, studentId: string)
  {
    exists i :: 0 <= i < |targets| && targets[i].id == studentId
  }

  function PeriodTest(source: string, period: string, targets: seq<Students.Student>)
    : Assessments.AssessmentRecord -> bool
  {
    (a: Assessments.AssessmentRecord) => a.source == source && a.period == period && Targets(targets, a.studentId)
  }

  /** The records of one source and period that belong to a target
      student, in record order. */
  function PeriodRecords(records: seq<Assessments.AssessmentRecord>, source: string, period: string,
                         targets: seq<Students.Student>): (r: seq<Assessments.AssessmentRecord>)
    ensures IsSubseq(r, records)
    ensures forall i :: 0 <= i < |r| ==>
              r[i].source == source && r[i].period == period && Targets(targets, r[i].studentId)
    ensures forall i :: (0 <= i < |records| && records[i].source == source && records[i].period == period
                         && Targets(targets, records[i].studentId)) ==> records[i] in r
  {
    FilterIsSubseq(records, PeriodTest(source, period, targets));
    FilterMembers(records, PeriodTest(source, period, targets));
    Filter(records, PeriodTest(source, period, targets))
  }

  // ---------------------------------------------------------------------
  // Proficiency

  /** `proficiency`: the latest-period records of the target students,
      tallied by label; a record with no label or another label is skipped. */
  method Proficiency(records: seq<Assessments.AssessmentRecord>, source: string, targets: seq<Students.Student>)
    returns (result: Assessments.ProficiencyCounts)
    ensures result == Assessments.CountProficiencies(
                        PeriodRecords(records, source, Assessments.LatestPeriod(source), targets))
  {
    result := Assessments.TallyProficiencies(
      PeriodRecords(records, source, Assessments.LatestPeriod(source), targets));
  }

  /** One turn of the switch adds one to the total exactly for a labelled
      record. */
  lemma TallyTotal(c: Assessments.ProficiencyCounts, a: Assessments.AssessmentRecord)
    ensures Assessments.Total(Assessments.Tally(c, a.proficiency))
            == Assessments.Total(c) + if Assessments.HasAnyLabel(a) then 1 else 0
  {
    assert Assessments.HasAnyLabel(a) <==>
           a.proficiency in {Some(Assessments.BELOW), Some(Assessments.APPROACHING),
                             Some(Assessments.ON_GRADE_LEVEL), Some(Assessments.ABOVE_GRADE_LEVEL)};
  }

  /** `totalAssessed` counts the labelled latest records, so it is at most
      their number, and equal to it when every one of them is labelled. */
  lemma {:induction false} AssessedCount(latest: seq<Assessments.AssessmentRecord>)
    ensures Assessments.Total(Assessments.CountProficiencies(latest)) <= |latest|
    ensures Assessments.AllLabelled(latest) ==> Assessments.Total(Assessments.CountProficiencies(latest)) == |latest|
  {
    if latest != [] {
      var front := latest[..|latest| - 1];
      assert Assessments.AllLabelled(latest) ==> Assessments.AllLabelled(front);
      AssessedCount(front);
      TallyTotal(Assessments.CountProficiencies(front), latest[|latest| - 1]);
    }
  }

  /** The "On/Above Grade Level" percentage: 0 when no one was assessed,
      otherwise the rounded share of On Grade Level and Above. */
  function OnTrackPercent(c: Assessments.ProficiencyCounts): (r: int)
    ensures Assessments.Total(c) == 0 ==> r == 0
    ensures 0 <= r <= 100
    ensures Assessments.Total(c) > 0 && c.below + c.approaching == 0 ==> r == 100
    ensures c.meets + c.exceeds == 0 ==> r == 0
  {
    var total := Assessments.Total(c);
    if total == 0 then 0
    else
      RoundHalfUpWithin(100 * (c.meets + c.exceeds), total, 0, 100);
      if c.below + c.approaching == 0 then
        RoundHalfUpExact(100, total);
        RoundHalfUp(100 * (c.meets + c.exceeds), total)
      else if c.meets + c.exceeds == 0 then
        RoundHalfUpExact(0, total);
        RoundHalfUp(100 * (c.meets + c.exceeds), total)
      else RoundHalfUp(100 * (c.meets + c.exceeds), total)
  }

  // ---------------------------------------------------------------------
  // Average scores

  function ScoreOf(): Assessments.AssessmentRecord -> int
  {
    (a: Assessments.AssessmentRecord) => a.score
  }

  /** `Math.round(sum / n)`, or 0 for no records. */
  function AverageScore(rs: seq<Assessments.AssessmentRecord>): (r: int)
    ensures rs == [] ==> r == 0
    ensures rs != [] ==> 2 * |rs| * r <= 2 * SumOf(rs, ScoreOf()) + |rs| < 2 * |rs| * r + 2 * |rs|
  {
    if rs == [] then 0
    else
      RoundHalfUpNearest(SumOf(rs, ScoreOf()), |rs|);
      RoundHalfUp(SumOf(rs, ScoreOf()), |rs|)
  }

  /** The average of scores within a range lies in that range. */
  lemma AverageScoreWithin(rs: seq<Assessments.AssessmentRecord>, lo: int, hi: int)
    requires rs != []
    requires forall i :: 0 <= i < |rs| ==> lo <= rs[i].score <= hi
    ensures lo <= AverageScore(rs) <= hi
  {
    SumOfBounds(rs, ScoreOf(), lo, hi);
    RoundHalfUpWithin(SumOf(rs, ScoreOf()), |rs|, lo, hi);
  }

  /** `avgScoresByPeriod`: one point per period of the source, in order,
      each against the source's benchmark (460 for iReady, 380 for FAST). */
  function AvgScoresByPeriod(records: seq<Assessments.AssessmentRecord>, source: string,
                             targets: seq<Students.Student>): (r: seq<Assessments.TrendPoint>)
    ensures |r| == |Periods(source)|
    ensures forall k :: 0 <= k < |r| ==>
              r[k].name == Periods(source)[k]
              && r[k].score == AverageScore(PeriodRecords(records, source, Periods(source)[k], targets))
              && r[k].benchmark == if Assessments.IsIReady(source) then 460 else 380
  {
    var periods := Periods(source);
    seq(|periods|, k requires 0 <= k < |periods| =>
      Assessments.TrendPoint(periods[k], AverageScore(PeriodRecords(records, source, periods[k], targets)),
                             Assessments.Benchmark(source)))
  }

  datatype LevelScore = LevelScore(grade: string, score: int)

  /** `scoresByGradeLevel`: for each grade level K to 5, the average latest
      score of its students across the whole school. */
  function ScoresByGradeLevel(records: seq<Assessments.AssessmentRecord>, roster: seq<Students.Student>,
                              source: string): (r: seq<LevelScore>)
    ensures |r| == |GradeAnalytics.AllGrades|
    ensures forall k :: 0 <= k < |r| ==>
              var level := Students.GetStudentsByGrade(roster, GradeAnalytics.AllGrades[k]);
              r[k].grade == "Grade " + GradeAnalytics.AllGrades[k]
              && r[k].score == AverageScore(PeriodRecords(records, source, Assessments.LatestPeriod(source), level))
              && (level == [] ==> r[k].score == 0)
  {
    var grades := GradeAnalytics.AllGrades;
    seq(|grades|, k requires 0 <= k < |grades| =>
      LevelScore("Grade " + grades[k],
                 AverageScore(PeriodRecords(records, source, Assessments.LatestPeriod(source),
                                            Students.GetStudentsByGrade(roster, grades[k])))))
  }

  /** No target students means no records for any period. */
  lemma NoTargetsNoRecords(records: seq<Assessments.AssessmentRecord>, source: string, period: string)
    ensures PeriodRecords(records, source, period, []) == []
  {
    FilterNone(records, PeriodTest(source, period, []));
  }

  /** `growth`: the latest period's average minus the first period's. */
  function Growth(records: seq<Assessments.AssessmentRecord>, source: string, targets: seq<Students.Student>)
    : (g: int)
    ensures var latest := PeriodRecords(records, source, Assessments.LatestPeriod(source), targets);
            var first := PeriodRecords(records, source, FirstPeriod(source), targets);
            g == AverageScore(latest) - AverageScore(first)
            && (latest == [] && first == [] ==> g == 0)
  {
    AverageScore(PeriodRecords(records, source, Assessments.LatestPeriod(source), targets))
      - AverageScore(PeriodRecords(records, source, FirstPeriod(source), targets))
  }

  // ---------------------------------------------------------------------
  // Student ranking

  datatype ScoreRow = ScoreRow(student: Students.Student, record: Assessments.AssessmentRecord)

  function LatestFor(studentId: string, source: string): Assessments.AssessmentRecord -> bool
  {
    (a: Assessments.AssessmentRecord) =>
      a.studentId == studentId && a.source == source && a.period == Assessments.LatestPeriod(source)
  }

  /** The first latest record of each target student, in target order,
      leaving out the students who have none. */
  function ScoreRows(records: seq<Assessments.AssessmentRecord>, source: string, targets: seq<Students.Student>)
    : (r: seq<ScoreRow>)
    ensures |r| <= |targets|
    ensures forall i :: 0 <= i < |r| ==>
              r[i].student in targets && r[i].record in records && LatestFor(r[i].student.id, source)(r[i].record)
  {
    if targets == [] then []
    else
      var front := ScoreRows(records, source, targets[..|targets| - 1]);
      var s := targets[|targets| - 1];
      match Find(records, LatestFor(s.id, source))
      case Some(a) => front + [ScoreRow(s, a)]
      case None => front
  }

  predicate Ranked(rows: seq<ScoreRow>, s: Students.Student)
  {
    exists i :: 0 <= i < |rows| && rows[i].student == s
  }

  predicate HasLatest(records: seq<Assessments.AssessmentRecord>, s: Students.Student, source: string)
  {
    exists j :: 0 <= j < |records| && LatestFor(s.id, source)(records[j])
  }

  lemma RankedSnoc(rows: seq<ScoreRow>, x: ScoreRow, s: Students.Student)
    ensures Ranked(rows + [x], s) <==> Ranked(rows, s) || x.student == s
  {
    if Ranked(rows + [x], s) {
      var i :| 0 <= i < |rows + [x]| && (rows + [x])[i].student == s;
      if i < |rows| {
        assert rows[i] == (rows + [x])[i];
      }
    }
    if Ranked(rows, s) {
      var i :| 0 <= i < |rows| && rows[i].student == s;
      assert (rows + [x])[i] == rows[i];
    }
    assert (rows + [x])[|rows|] == x;
  }

  /** A target student is ranked exactly when some record is a latest one of
      theirs. */
  lemma {:induction false} ScoreRowsCover(records: seq<Assessments.AssessmentRecord>, source: string,
                                          targets: seq<Students.Student>, s: Students.Student)
    requires s in targets
    ensures Ranked(ScoreRows(records, source, targets), s) <==> HasLatest(records, s, source)
  {
    var front := targets[..|targets| - 1];
    var last := targets[|targets| - 1];
    var found := Find(records, LatestFor(last.id, source));
    if found.Some? {
      RankedSnoc(ScoreRows(records, source, front), ScoreRow(last, found.value), s);
    }
    if s in front {
      ScoreRowsCover(records, source, front, s);
    } else {
      assert s == last;
    }
  }

  function RowScore(): ScoreRow -> int
  {
    (row: ScoreRow) => row.record.score
  }

  /** `studentScores`: the ranked rows, highest latest score first. */
  function StudentScores(records: seq<Assessments.AssessmentRecord>, source: string, targets: seq<Students.Student>)
    : (r: seq<ScoreRow>)
    ensures multiset(r) == multiset(ScoreRows(records, source, targets))
    ensures forall i, j :: 0 <= i < j < |r| ==> r[i].record.score >= r[j].record.score
  {
    SortByKeyDesc(ScoreRows(records, source, targets), RowScore())
  }
}
