// Synthetic monthly attendance (src/data/attendance.ts): seeded absences and
// tardies per student and month, the pre-generated record list, and the rates
// derived from it. Rates are kept in tenths of a percent.

module Attendance {
  import opened Common
  import opened Hashing

  datatype AttendanceRecord = AttendanceRecord(
    studentId: string,
    month: string,
    present: int,
    absent: int,
    tardy: int,
    rate: int)

  /** The school year's months, September to May. */
  const Months: seq<string> := ["Sep", "Oct", "Nov", "Dec", "Jan", "Feb", "Mar", "Apr", "May"]

  /** `schoolDays[month]` for the nine months. */
  function SchoolDays(month: string): (d: int)
    requires month in Months
    ensures 15 <= d <= 22
  {
    if month == "Sep" then 20
    else if month == "Oct" then 22
    else if month == "Nov" then 17
    else if month == "Dec" then 15
    else if month == "Jan" then 19
    else if month == "Feb" then 18
    else if month == "Mar" then 21
    else if month == "Apr" then 20
    else 18
  }

  /** The days of the whole year. */
  const YearDays: int := 170

  datatype AttendanceProfile = Excellent | Good | Concerning | Critical

  const AttendanceProfiles: map<string, AttendanceProfile> := map[
    "STU001" := Excellent, "STU002" := Excellent, "STU003" := Excellent,
    "STU006" := Excellent, "STU007" := Excellent, "STU011" := Excellent,
    "STU012" := Excellent, "STU016" := Excellent, "STU017" := Excellent,
    "STU021" := Excellent, "STU022" := Excellent, "STU026" := Excellent, "STU027" := Excellent,
    "STU004" := Good, "STU005" := Good, "STU008" := Good, "STU010" := Good,
    "STU014" := Good, "STU015" := Good, "STU020" := Good,
    "STU023" := Good, "STU025" := Good, "STU028" := Good, "STU030" := Good,
    "STU009" := Concerning, "STU013" := Concerning, "STU018" := Concerning,
    "STU024" := Concerning, "STU029" := Concerning,
    "STU019" := Critical
  ]

  /** `attendanceProfiles[studentId] || 'good'`; the table is a parameter of
      the generator, and the demo passes AttendanceProfiles. */
  function ProfileOf(profiles: map<string, AttendanceProfile>, studentId: string): AttendanceProfile
  {
    if studentId in profiles then profiles[studentId] else Good
  }

  /** `seededValue`: `Math.round(base + b/1000 * variance * 2 - variance)` where
      b is `|hash(studentId + seed)| % 1000`; it lies within variance of base. */
  function SeededValue(studentId: string, seed: string, base: int, variance: nat): (r: int)
    ensures base - variance <= r <= base + variance
  {
    var b := Bucket(studentId + seed);
    MulMonotoneNat(2 * variance, 0, b);
    MulMonotoneNat(2 * variance, b, 1000);
    RoundHalfUpWithin(1000 * (base - variance) + 2 * b * variance, 1000, base - variance, base + variance);
    RoundHalfUp(1000 * (base - variance) + 2 * b * variance, 1000)
  }

  /** The absence and tardy bases of a profile. */
  function AbsentBase(profile: AttendanceProfile): int
  {
    match profile
    case Excellent => 0
    case Good => 1
    case Concerning => 2
    case Critical => 4
  }

  function TardyBase(profile: AttendanceProfile): int
  {
    match profile
    case Excellent => 0
    case Good => 1
    case Concerning => 2
    case Critical => 2
  }

  /** `generateMonthlyRecord`: absences kept in [0, days - 5], tardies in
      [0, 5], the rest of the days present, and the month's rate. */
  function GenerateMonthlyRecord(studentId: string, month: string, profile: AttendanceProfile)
    : (r: AttendanceRecord)
    requires month in Months
    ensures r.studentId == studentId && r.month == month
    ensures 0 <= r.absent <= SchoolDays(month) - 5 && 0 <= r.tardy <= 5
    ensures r.present + r.absent == SchoolDays(month) && r.present >= 5
    ensures 0 <= r.rate <= 1000
  {
    var total := SchoolDays(month);
    var absentVariance := if profile == Critical then 2 else 1;
    var absent := Max(0, Min(total - 5, SeededValue(studentId, month + "a", AbsentBase(profile), absentVariance)));
    var tardy := Max(0, Min(5, SeededValue(studentId, month + "t", TardyBase(profile), 1)));
    var present := total - absent;
    RoundHalfUpWithin(1000 * present, total, 0, 1000);
    AttendanceRecord(studentId, month, present, absent, tardy, RoundHalfUp(1000 * present, total))
  }

  /** The month's rate is the share of days present rounded to a tenth of a
      percent, halves up. */
  lemma MonthlyRateIsRounded(studentId: string, month: string, profile: AttendanceProfile)
    requires month in Months
    ensures var r := GenerateMonthlyRecord(studentId, month, profile);
            var days := SchoolDays(month);
            2 * days * r.rate <= 2000 * r.present + days < 2 * days * r.rate + 2 * days
  {
    var r := GenerateMonthlyRecord(studentId, month, profile);
    RoundHalfUpNearest(1000 * r.present, SchoolDays(month));
  }

  // ---------------------------------------------------------------------
  // Generated records

  /** The nine records of one student, one per month in school-year order. */
  function StudentAttendance(studentId: string, profile: AttendanceProfile): (r: seq<AttendanceRecord>)
    ensures |r| == |Months|
  {
    seq(|Months|, m requires 0 <= m < |Months| => GenerateMonthlyRecord(studentId, Months[m], profile))
  }

  /** The module-level list built from a list of ids, in loop order. */
  function AttendanceRecordsFor(profiles: map<string, AttendanceProfile>, ids: seq<string>)
    : (r: seq<AttendanceRecord>)
    ensures |r| == |Months| * |ids|
  {
    if ids == [] then []
    else AttendanceRecordsFor(profiles, ids[..|ids| - 1])
         + StudentAttendance(ids[|ids| - 1], ProfileOf(profiles, ids[|ids| - 1]))
  }

  lemma AttendanceRecordsForSnoc(profiles: map<string, AttendanceProfile>, ids: seq<string>, k: int)
    requires 0 <= k < |ids|
    ensures AttendanceRecordsFor(profiles, ids[..k + 1])
            == AttendanceRecordsFor(profiles, ids[..k]) + StudentAttendance(ids[k], ProfileOf(profiles, ids[k]))
  {
    assert ids[..k + 1][..k] == ids[..k];
  }

  /** The generation loop: for each id, for each month, push one record. */
  method GenerateAttendanceRecords(profiles: map<string, AttendanceProfile>, ids: seq<string>)
    returns (records: seq<AttendanceRecord>)
    ensures records == AttendanceRecordsFor(profiles, ids)
  {
    records := [];
    var k := 0;
    while k < |ids|
      invariant 0 <= k <= |ids|
      invariant records == AttendanceRecordsFor(profiles, ids[..k])
    {
      var studentId := ids[k];
      var profile := ProfileOf(profiles, studentId);
      records := PushMonths(records, studentId, profile);
      AttendanceRecordsForSnoc(profiles, ids, k);
      k := k + 1;
    }
    assert ids[..k] == ids;
  }

  /** The inner `for (const month of months)` loop. */
  method PushMonths(records0: seq<AttendanceRecord>, studentId: string, profile: AttendanceProfile)
    returns (records: seq<AttendanceRecord>)
    ensures records == records0 + StudentAttendance(studentId, profile)
  {
    ghost var block := StudentAttendance(studentId, profile);
    records := records0;
    var m := 0;
    while m < |Months|
      invariant 0 <= m <= |Months|
      invariant records == records0 + block[..m]
    {
      records := records + [GenerateMonthlyRecord(studentId, Months[m], profile)];
      assert block[..m + 1] == block[..m] + [block[m]];
      m := m + 1;
    }
    assert block[..m] == block;
  }

  /** A record the rate functions can divide by: no negative counts and at
      least one school day. */
  predicate ValidRecord(r: AttendanceRecord)
  {
    r.present >= 0 && r.absent >= 0 && r.present + r.absent > 0
  }

  predicate AllValid(rs: seq<AttendanceRecord>)
  {
    forall i :: 0 <= i < |rs| ==> ValidRecord(rs[i])
  }

  lemma {:induction false} GeneratedRecordsValid(profiles: map<string, AttendanceProfile>, ids: seq<string>)
    ensures AllValid(AttendanceRecordsFor(profiles, ids))
  {
    if ids != [] {
      GeneratedRecordsValid(profiles, ids[..|ids| - 1]);
      var head := AttendanceRecordsFor(profiles, ids[..|ids| - 1]);
      var block := StudentAttendance(ids[|ids| - 1], ProfileOf(profiles, ids[|ids| - 1]));
      assert AllValid(block);
      assert AttendanceRecordsFor(profiles, ids) == head + block;
    }
  }

  // ---------------------------------------------------------------------
  // Queries

  function OwnerTest(studentId: string): AttendanceRecord -> bool
  {
    (r: AttendanceRecord) => r.studentId == studentId
  }

  /** `attendanceRecords.filter(r => r.studentId === studentId)`. */
  function GetStudentAttendance(records: seq<AttendanceRecord>, studentId: string): (r: seq<AttendanceRecord>)
    ensures IsSubseq(r, records)
    ensures forall i :: 0 <= i < |r| ==> r[i].studentId == studentId
    ensures forall i :: 0 <= i < |records| && records[i].studentId == studentId ==> records[i] in r
  {
    FilterIsSubseq(records, OwnerTest(studentId));
    FilterMembers(records, OwnerTest(studentId));
    Filter(records, OwnerTest(studentId))
  }

  /** For distinct ids, a listed student has exactly the nine generated
      records, one per month from September to May, and anyone else has none. */
  lemma {:induction false} StudentAttendanceOfGenerated(profiles: map<string, AttendanceProfile>,
                                                       ids: seq<string>, studentId: string)
    requires NoDup(ids)
    ensures GetStudentAttendance(AttendanceRecordsFor(profiles, ids), studentId)
            == if studentId in ids then StudentAttendance(studentId, ProfileOf(profiles, studentId)) else []
  {
    if ids != [] {
      var front := ids[..|ids| - 1];
      var id := ids[|ids| - 1];
      assert NoDup(front);
      StudentAttendanceOfGenerated(profiles, front, studentId);
      var block := StudentAttendance(id, ProfileOf(profiles, id));
      assert AttendanceRecordsFor(profiles, ids) == AttendanceRecordsFor(profiles, front) + block;
      FilterAppend(AttendanceRecordsFor(profiles, front), block, OwnerTest(studentId));
      if id == studentId {
        FilterAll(block, OwnerTest(studentId));
        assert studentId !in front;
      } else {
        FilterNone(block, OwnerTest(studentId));
      }
    }
  }

  function PresentOf(): AttendanceRecord -> int
  {
    (r: AttendanceRecord) => r.present
  }

  function DaysOf(): AttendanceRecord -> int
  {
    (r: AttendanceRecord) => r.present + r.absent
  }

  /** Over valid records, days present are at most the days counted, and
      there is at least one day per record. */
  lemma {:induction false} TotalsOfValid(rs: seq<AttendanceRecord>)
    requires AllValid(rs)
    ensures 0 <= SumOf(rs, PresentOf()) <= SumOf(rs, DaysOf())
    ensures SumOf(rs, DaysOf()) >= |rs|
  {
    if rs != [] { TotalsOfValid(rs[1..]); }
  }

  /** `Math.round((totalPresent / totalDays) * 1000) / 10`, in tenths. */
  function RateOf(rs: seq<AttendanceRecord>): (r: int)
    requires AllValid(rs) && rs != []
    ensures 0 <= r <= 1000
  {
    var present := SumOf(rs, PresentOf());
    var days := SumOf(rs, DaysOf());
    TotalsOfValid(rs);
    RoundHalfUpWithin(1000 * present, days, 0, 1000);
    RoundHalfUp(1000 * present, days)
  }

  /** `getStudentAttendanceRate`: 0 for a student without records, otherwise
      the share of their days present, in tenths of a percent. */
  function GetStudentAttendanceRate(records: seq<AttendanceRecord>, studentId: string): (r: int)
    requires AllValid(records)
    ensures 0 <= r <= 1000
    ensures GetStudentAttendance(records, studentId) == [] ==> r == 0
  {
    var mine := GetStudentAttendance(records, studentId);
    if mine == [] then 0
    else
      assert AllValid(mine) by {
        FilterMembers(records, OwnerTest(studentId));
        forall i | 0 <= i < |mine| ensures ValidRecord(mine[i]) {
          assert mine[i] in records;
        }
      }
      RateOf(mine)
  }

  /** The school days from the m-th month to May. */
  function DaysFrom(m: nat): int
    requires m <= |Months|
    decreases |Months| - m
  {
    if m == |Months| then 0 else SchoolDays(Months[m]) + DaysFrom(m + 1)
  }

  lemma YearDaysTotal()
    ensures DaysFrom(0) == YearDays
  {
    assert DaysFrom(8) == 18;
    assert DaysFrom(7) == 38;
    assert DaysFrom(6) == 59;
    assert DaysFrom(5) == 77;
    assert DaysFrom(4) == 96;
    assert DaysFrom(3) == 111;
    assert DaysFrom(2) == 128;
    assert DaysFrom(1) == 150;
  }

  /** Records that follow the school calendar month by month count its days. */
  lemma {:induction false} CalendarDaysFrom(rs: seq<AttendanceRecord>, m: nat)
    requires |rs| == |Months| && m <= |Months|
    requires forall k :: 0 <= k < |Months| ==> rs[k].present + rs[k].absent == SchoolDays(Months[k])
    ensures SumOf(rs[m..], DaysOf()) == DaysFrom(m)
    decreases |Months| - m
  {
    if m < |Months| {
      CalendarDaysFrom(rs, m + 1);
      var rest := rs[m..];
      assert rest[0] == rs[m] && rest[1..] == rs[m + 1..];
      assert SumOf(rest, DaysOf()) == DaysOf()(rest[0]) + SumOf(rest[1..], DaysOf());
    }
  }

  lemma StudentDaysFrom(studentId: string, profile: AttendanceProfile)
    ensures SumOf(StudentAttendance(studentId, profile), DaysOf()) == DaysFrom(0)
  {
    var block := StudentAttendance(studentId, profile);
    CalendarDaysFrom(block, 0);
    assert block[0..] == block;
  }

  /** On generated data, a listed student's rate divides by the 170 days of
      the school year. */
  lemma GeneratedRateOverYear(profiles: map<string, AttendanceProfile>, ids: seq<string>, studentId: string)
    requires NoDup(ids) && studentId in ids
    ensures SumOf(GetStudentAttendance(AttendanceRecordsFor(profiles, ids), studentId), DaysOf()) == YearDays
  {
    StudentAttendanceOfGenerated(profiles, ids, studentId);
    var block := StudentAttendance(studentId, ProfileOf(profiles, studentId));
    StudentDaysFrom(studentId, ProfileOf(profiles, studentId));
    YearDaysTotal();
  }

  datatype ChartPoint = ChartPoint(name: string, attendanceRate: int)

  /** `getMonthlyAttendanceForChart`: one point per record of the student, in
      the same order, named by month and carrying the month's rate. */
  function GetMonthlyAttendanceForChart(records: seq<AttendanceRecord>, studentId: string)
    : (r: seq<ChartPoint>)
    ensures var mine := GetStudentAttendance(records, studentId);
            |r| == |mine|
            && forall i :: 0 <= i < |r| ==> r[i] == ChartPoint(mine[i].month, mine[i].rate)
  {
    var mine := GetStudentAttendance(records, studentId);
    seq(|mine|, i requires 0 <= i < |mine| => ChartPoint(mine[i].month, mine[i].rate))
  }

  /** On generated data a listed student's chart runs September to May. */
  lemma ChartOfGenerated(profiles: map<string, AttendanceProfile>, ids: seq<string>, studentId: string)
    requires NoDup(ids) && studentId in ids
    ensures var chart := GetMonthlyAttendanceForChart(AttendanceRecordsFor(profiles, ids), studentId);
            |chart| == |Months| && forall m :: 0 <= m < |Months| ==> chart[m].name == Months[m]
  {
    StudentAttendanceOfGenerated(profiles, ids, studentId);
  }

  /** `getSchoolwideAttendanceRate`: the share of all days present, in
      tenths. The source divides by the total of its (non-empty) list. */
  function GetSchoolwideAttendanceRate(records: seq<AttendanceRecord>): (r: int)
    requires AllValid(records) && records != []
    ensures 0 <= r <= 1000
  {
    RateOf(records)
  }
}
