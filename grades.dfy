// Synthetic course grades (src/data/grades.ts): a seeded letter per student,
// course and quarter drawn from the student's grade profile, the pre-generated
// record list, and GPA queries over it. GPAs are kept in hundredths.

module Grades {
  import opened Common
  import opened Hashing

  const Courses: seq<string> := [
    "Mathematics", "English Language Arts", "Science", "Social Studies", "Art", "Physical Education"
  ]

  /** The course teachers; a course outside the table has no teacher (undefined). */
  function TeacherOf(course: string): string
  {
    if course == "Mathematics" then "Ms. Warren"
    else if course == "English Language Arts" then "Mr. Brooks"
    else if course == "Science" then "Mrs. Fernandez"
    else if course == "Social Studies" then "Mr. Okoro"
    else if course == "Art" then "Ms. Lambert"
    else if course == "Physical Education" then "Coach Reeves"
    else ""
  }

  datatype GradeProfile = High | Average | Struggling | Failing

  const GradeProfiles: map<string, GradeProfile> := map[
    "STU001" := High, "STU002" := High, "STU003" := High,
    "STU006" := High, "STU007" := High, "STU011" := High,
    "STU012" := High, "STU016" := High, "STU017" := High,
    "STU021" := High, "STU022" := High, "STU026" := High, "STU027" := High,
    "STU004" := Average, "STU005" := Average, "STU008" := Average, "STU010" := Average,
    "STU014" := Average, "STU015" := Average, "STU020" := Average,
    "STU023" := Average, "STU025" := Average, "STU028" := Average, "STU030" := Average,
    "STU009" := Struggling, "STU013" := Struggling, "STU018" := Struggling,
    "STU024" := Struggling, "STU029" := Struggling,
    "STU019" := Failing
  ]

  /** `gradeProfiles[studentId] || 'average'`; the table is a parameter of the
      generator, and the demo passes GradeProfiles. */
  function ProfileOf(profiles: map<string, GradeProfile>, studentId: string): GradeProfile
  {
    if studentId in profiles then profiles[studentId] else Average
  }

  /** `seededIndex(str, max)`: `Math.abs(hash) % max`, with the hash loop of
      Hashing.StringHash. */
  function SeededIndex(str: string, max: int): (r: int)
    requires max > 0
    ensures 0 <= r < max
  {
    var h := HashOf(str);
    (if h < 0 then -h else h) % max
  }

  /** The letters a profile can draw. */
  function AllowedGrades(profile: GradeProfile): set<string>
  {
    match profile
    case High => {"A", "B", "C"}
    case Average => {"A", "B", "C", "D"}
    case Struggling => {"B", "C", "D", "F"}
    case Failing => {"C", "D", "F"}
  }

  /** The letter for a draw in [0, 10): the profile's cumulative cut-offs. */
  function GradeForDraw(profile: GradeProfile, idx: int): string
  {
    match profile
    case High => if idx < 6 then "A" else if idx < 9 then "B" else "C"
    case Average => if idx < 2 then "A" else if idx < 7 then "B" else if idx < 9 then "C" else "D"
    case Struggling => if idx < 1 then "B" else if idx < 5 then "C" else if idx < 9 then "D" else "F"
    case Failing => if idx < 1 then "C" else if idx < 5 then "D" else "F"
  }

  /** `pickGrade`: the letter for the seeded draw of studentId + course + quarter. */
  function PickGrade(studentId: string, course: string, quarter: string, profile: GradeProfile): (r: string)
    ensures r in AllowedGrades(profile)
  {
    GradeForDraw(profile, SeededIndex(studentId + course + quarter, 10))
  }

  /** Every letter of a profile's set is drawn for some index in [0, 10): the
      sets are exactly the letters each profile can produce. */
  lemma AllowedGradesReached(profile: GradeProfile, g: string)
    requires g in AllowedGrades(profile)
    ensures exists idx :: 0 <= idx < 10 && GradeForDraw(profile, idx) == g
  {
    match profile
    case High =>
      if g == "A" { assert GradeForDraw(profile, 0) == g; }
      else if g == "B" { assert GradeForDraw(profile, 6) == g; }
      else { assert GradeForDraw(profile, 9) == g; }
    case Average =>
      if g == "A" { assert GradeForDraw(profile, 0) == g; }
      else if g == "B" { assert GradeForDraw(profile, 2) == g; }
      else if g == "C" { assert GradeForDraw(profile, 7) == g; }
      else { assert GradeForDraw(profile, 9) == g; }
    case Struggling =>
      if g == "B" { assert GradeForDraw(profile, 0) == g; }
      else if g == "C" { assert GradeForDraw(profile, 1) == g; }
      else if g == "D" { assert GradeForDraw(profile, 5) == g; }
      else { assert GradeForDraw(profile, 9) == g; }
    case Failing =>
      if g == "C" { assert GradeForDraw(profile, 0) == g; }
      else if g == "D" { assert GradeForDraw(profile, 1) == g; }
      else { assert GradeForDraw(profile, 5) == g; }
  }

  // ---------------------------------------------------------------------
  // Generated records

  datatype GradeRecord = GradeRecord(
    studentId: string,
    course: string,
    teacher: string,
    q1: string,
    q2: string,
    q3: string,
    q4: string,
    current: string)

  /** The record pushed for one student and course; Q3 is the current grade. */
  function CourseRecord(studentId: string, course: string, profile: GradeProfile): GradeRecord
  {
    var q3 := PickGrade(studentId, course, "Q3", profile);
    GradeRecord(studentId, course, TeacherOf(course),
                PickGrade(studentId, course, "Q1", profile),
                PickGrade(studentId, course, "Q2", profile),
                q3,
                PickGrade(studentId, course, "Q4", profile),
                q3)
  }

  /** The six records of one student, one per course in course order. */
  function StudentGradeRecords(studentId: string, profile: GradeProfile): (r: seq<GradeRecord>)
    ensures |r| == |Courses|
  {
    seq(|Courses|, k requires 0 <= k < |Courses| => CourseRecord(studentId, Courses[k], profile))
  }

  /** The module-level list built from a list of ids, in loop order. */
  function GradeRecordsFor(profiles: map<string, GradeProfile>, ids: seq<string>): (r: seq<GradeRecord>)
    ensures |r| == |Courses| * |ids|
  {
    if ids == [] then []
    else GradeRecordsFor(profiles, ids[..|ids| - 1])
         + StudentGradeRecords(ids[|ids| - 1], ProfileOf(profiles, ids[|ids| - 1]))
  }

  lemma GradeRecordsForSnoc(profiles: map<string, GradeProfile>, ids: seq<string>, k: int)
    requires 0 <= k < |ids|
    ensures GradeRecordsFor(profiles, ids[..k + 1])
            == GradeRecordsFor(profiles, ids[..k]) + StudentGradeRecords(ids[k], ProfileOf(profiles, ids[k]))
  {
    assert ids[..k + 1][..k] == ids[..k];
  }

  /** The generation loop: for each id, for each course, push one record. */
  method GenerateGradeRecords(profiles: map<string, GradeProfile>, ids: seq<string>)
    returns (records: seq<GradeRecord>)
    ensures records == GradeRecordsFor(profiles, ids)
  {
    records := [];
    var k := 0;
    while k < |ids|
      invariant 0 <= k <= |ids|
      invariant records == GradeRecordsFor(profiles, ids[..k])
    {
      var studentId := ids[k];
      var profile := ProfileOf(profiles, studentId);
      ghost var before := records;
      ghost var block := StudentGradeRecords(studentId, profile);
      var c := 0;
      while c < |Courses|
        invariant 0 <= c <= |Courses|
        invariant records == before + block[..c]
      {
        var course := Courses[c];
        var q1 := PickGrade(studentId, course, "Q1", profile);
        var q2 := PickGrade(studentId, course, "Q2", profile);
        var q3 := PickGrade(studentId, course, "Q3", profile);
        var q4 := PickGrade(studentId, course, "Q4", profile);
        records := records + [GradeRecord(studentId, course, TeacherOf(course), q1, q2, q3, q4, q3)];
        assert block[..c + 1] == block[..c] + [block[c]];
        c := c + 1;
      }
      assert block[..c] == block;
      GradeRecordsForSnoc(profiles, ids, k);
      k := k + 1;
    }
    assert ids[..k] == ids;
  }

  /** Every generated record belongs to a listed student, has Q3 as its current
      grade, and carries letters from its student's profile. */
  predicate WellGraded(r: GradeRecord, profiles: map<string, GradeProfile>)
  {
    var allowed := AllowedGrades(ProfileOf(profiles, r.studentId));
    r.current == r.q3 && r.q1 in allowed && r.q2 in allowed && r.q3 in allowed && r.q4 in allowed
  }

  lemma {:induction false} GeneratedGradesWellGraded(profiles: map<string, GradeProfile>, ids: seq<string>)
    ensures forall i :: 0 <= i < |GradeRecordsFor(profiles, ids)| ==>
              WellGraded(GradeRecordsFor(profiles, ids)[i], profiles)
              && GradeRecordsFor(profiles, ids)[i].studentId in ids
  {
    if ids != [] {
      var front := ids[..|ids| - 1];
      GeneratedGradesWellGraded(profiles, front);
      var rs := GradeRecordsFor(profiles, ids);
      var head := GradeRecordsFor(profiles, front);
      forall i | 0 <= i < |rs| ensures WellGraded(rs[i], profiles) && rs[i].studentId in ids {
        if i < |head| {
          assert rs[i] == head[i];
          assert head[i].studentId in front;
        } else {
          assert rs[i] == StudentGradeRecords(ids[|ids| - 1], ProfileOf(profiles, ids[|ids| - 1]))[i - |head|];
        }
      }
    }
  }

  // ---------------------------------------------------------------------
  // Queries

  function OwnerTest(studentId: string): GradeRecord -> bool
  {
    (r: GradeRecord) => r.studentId == studentId
  }

  /** `gradeRecords.filter(r => r.studentId === studentId)`. */
  function GetStudentGrades(records: seq<GradeRecord>, studentId: string): (r: seq<GradeRecord>)
    ensures IsSubseq(r, records)
    ensures forall i :: 0 <= i < |r| ==> r[i].studentId == studentId
    ensures forall i :: 0 <= i < |records| && records[i].studentId == studentId ==> records[i] in r
  {
    FilterIsSubseq(records, OwnerTest(studentId));
    FilterMembers(records, OwnerTest(studentId));
    Filter(records, OwnerTest(studentId))
  }

  /** For distinct ids, a listed student has exactly the six generated
      records, one per course in course order, and anyone else has none. */
  lemma {:induction false} StudentGradesOfGenerated(profiles: map<string, GradeProfile>, ids: seq<string>,
                                                   studentId: string)
    requires NoDup(ids)
    ensures GetStudentGrades(GradeRecordsFor(profiles, ids), studentId)
            == if studentId in ids then StudentGradeRecords(studentId, ProfileOf(profiles, studentId)) else []
  {
    if ids != [] {
      var front := ids[..|ids| - 1];
      var id := ids[|ids| - 1];
      assert NoDup(front);
      StudentGradesOfGenerated(profiles, front, studentId);
      var block := StudentGradeRecords(id, ProfileOf(profiles, id));
      assert GradeRecordsFor(profiles, ids) == GradeRecordsFor(profiles, front) + block;
      FilterAppend(GradeRecordsFor(profiles, front), block, OwnerTest(studentId));
      if id == studentId {
        FilterAll(block, OwnerTest(studentId));
        assert studentId !in front;
      } else {
        FilterNone(block, OwnerTest(studentId));
      }
    }
  }

  /** `gpaMap[letter] ?? 0`: A = 4 down to F = 0; anything else counts 0. */
  function GpaPoints(letter: string): (r: int)
    ensures 0 <= r <= 4
  {
    if letter == "A" then 4
    else if letter == "B" then 3
    else if letter == "C" then 2
    else if letter == "D" then 1
    else 0
  }

  /** The four quarter keys, Q1 to Q4. */
  const Quarters: seq<string> := ["Q1", "Q2", "Q3", "Q4"]

  /** `r[quarter.toLowerCase()]` for quarter index q in [0, 4). */
  function QuarterGrade(r: GradeRecord, q: int): string
    requires 0 <= q < 4
  {
    if q == 0 then r.q1 else if q == 1 then r.q2 else if q == 2 then r.q3 else r.q4
  }

  function CurrentPoints(): GradeRecord -> int
  {
    (r: GradeRecord) => GpaPoints(r.current)
  }

  function QuarterPoints(q: int): GradeRecord -> int
    requires 0 <= q < 4
  {
    (r: GradeRecord) => GpaPoints(QuarterGrade(r, q))
  }

  /** `getStudentGPA`, in hundredths: the mean points of the current grades,
      rounded, or 0 when the student has no records. */
  function GetStudentGPA(records: seq<GradeRecord>, studentId: string): (r: int)
    ensures 0 <= r <= 400
    ensures GetStudentGrades(records, studentId) == [] ==> r == 0
  {
    var mine := GetStudentGrades(records, studentId);
    var total := SumOf(mine, CurrentPoints());
    if mine == [] then 0
    else
      SumOfBounds(mine, CurrentPoints(), 0, 4);
      RoundedMeanWithin(total, |mine|, 100, 0, 4);
      RoundedMean(total, |mine|, 100)
  }

  /** The GPA is the mean points rounded to the nearest hundredth, halves up. */
  lemma GpaIsRoundedMean(records: seq<GradeRecord>, studentId: string)
    requires GetStudentGrades(records, studentId) != []
    ensures var mine := GetStudentGrades(records, studentId);
            var total := SumOf(mine, CurrentPoints());
            var n := |mine|;
            var gpa := GetStudentGPA(records, studentId);
            2 * n * gpa <= 200 * total + n < 2 * n * gpa + 2 * n
  {
    var mine := GetStudentGrades(records, studentId);
    RoundHalfUpNearest(100 * SumOf(mine, CurrentPoints()), |mine|);
  }

  datatype QuarterGpa = QuarterGpa(quarter: string, gpa: int)

  /** The quarter's mean points over the given records, in hundredths. */
  function QuarterAverage(mine: seq<GradeRecord>, q: int): (r: int)
    requires 0 <= q < 4 && mine != []
    ensures 0 <= r <= 400
  {
    SumOfBounds(mine, QuarterPoints(q), 0, 4);
    RoundedMeanWithin(SumOf(mine, QuarterPoints(q)), |mine|, 100, 0, 4);
    RoundedMean(SumOf(mine, QuarterPoints(q)), |mine|, 100)
  }

  /** `getStudentQuarterlyGPA`: nothing for a student without records,
      otherwise Q1..Q4 in order, each the rounded mean of that quarter. */
  function GetStudentQuarterlyGPA(records: seq<GradeRecord>, studentId: string): (r: seq<QuarterGpa>)
    ensures var mine := GetStudentGrades(records, studentId);
            (mine == [] <==> r == [])
            && (r != [] ==> |r| == 4 && forall q :: 0 <= q < 4 ==>
                  r[q].quarter == Quarters[q] && 0 <= r[q].gpa <= 400
                  && r[q].gpa == QuarterAverage(mine, q))
  {
    var mine := GetStudentGrades(records, studentId);
    if mine == [] then []
    else seq(4, q requires 0 <= q < 4 => QuarterGpa(Quarters[q], QuarterAverage(mine, q)))
  }

  lemma {:induction false} SumOfSameTerms(s: seq<GradeRecord>, f: GradeRecord -> int, g: GradeRecord -> int)
    requires forall i :: 0 <= i < |s| ==> f(s[i]) == g(s[i])
    ensures SumOf(s, f) == SumOf(s, g)
  {
    if s != [] { SumOfSameTerms(s[1..], f, g); }
  }

  /** Where every record's current grade is its Q3 grade, as generated, the Q3
      entry of the quarterly GPA is the student's GPA. */
  lemma Q3IsCurrentGpa(records: seq<GradeRecord>, studentId: string)
    requires forall i :: 0 <= i < |records| ==> records[i].current == records[i].q3
    requires GetStudentGrades(records, studentId) != []
    ensures GetStudentQuarterlyGPA(records, studentId)[2].gpa == GetStudentGPA(records, studentId)
  {
    var mine := GetStudentGrades(records, studentId);
    FilterMembers(records, OwnerTest(studentId));
    forall i | 0 <= i < |mine| ensures QuarterPoints(2)(mine[i]) == CurrentPoints()(mine[i]) {
      var j :| 0 <= j < |records| && records[j] == mine[i];
    }
    SumOfSameTerms(mine, QuarterPoints(2), CurrentPoints());
  }

  /** `getClassAverageGPA`, in hundredths: the rounded mean of the students'
      GPAs. The source averages over its 30 fixed ids. */
  function GetClassAverageGPA(records: seq<GradeRecord>, ids: seq<string>): (r: int)
    requires |ids| > 0
    ensures 0 <= r <= 400
  {
    var gpa := (id: string) => GetStudentGPA(records, id);
    SumOfBounds(ids, gpa, 0, 400);
    RoundedMeanWithin(SumOf(ids, gpa), |ids|, 1, 0, 400);
    RoundedMean(SumOf(ids, gpa), |ids|, 1)
  }
}
