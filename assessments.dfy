// Synthetic iReady and FAST assessment records (src/data/assessments.ts):
// seeded base scores and growth per performance level, proficiency labels and
// percentiles derived from the score, the pre-generated record list and the
// queries over it.

module Assessments {
  import opened Common
  import opened Hashing
  import Students

  datatype PerformanceLevel = High | Average | Struggling | Failing

  const PerformanceLevels: map<string, PerformanceLevel> := map[
    "STU001" := High,
    "STU002" := High,
    "STU003" := High,
    "STU006" := High,
    "STU007" := High,
    "STU011" := High,
    "STU012" := High,
    "STU016" := High,
    "STU017" := High,
    "STU021" := High,
    "STU022" := High,
    "STU026" := High,
    "STU027" := High,
    "STU004" := Average,
    "STU005" := Average,
    "STU008" := Average,
    "STU010" := Average,
    "STU014" := Average,
    "STU015" := Average,
    "STU020" := Average,
    "STU023" := Average,
    "STU025" := Average,
    "STU028" := Average,
    "STU030" := Average,
    "STU009" := Struggling,
    "STU013" := Struggling,
    "STU018" := Struggling,
    "STU024" := Struggling,
    "STU029" := Struggling,
    "STU019" := Failing
  ]

  /** `performanceLevels[studentId] || 'average'`. The table is a parameter of
      the generators so that their proofs hold for any table; the demo passes
      PerformanceLevels. */
  function LevelOf(levels: map<string, PerformanceLevel>, studentId: string): PerformanceLevel
  {
    if studentId in levels then levels[studentId] else Average
  }

  // ---------------------------------------------------------------------
  // seeded

  /** A draw of b/1000 of the way from min to max, rounded. */
  lemma DrawWithin(b: int, min: int, max: int)
    requires 0 <= b < 1000
    ensures min <= max ==> min <= RoundHalfUp(1000 * min + b * (max - min), 1000) <= max
  {
    if min <= max {
      MulMonotone(max - min, 0, b);
      MulMonotone(max - min, b, 1000);
      RoundHalfUpWithin(1000 * min + b * (max - min), 1000, min, max);
    }
  }

  /** `seeded(str, min, max)`: `Math.round(min + (|hash| % 1000) / 1000 * (max - min))`. */
  function Seeded(str: string, min: int, max: int): (r: int)
    ensures min <= max ==> min <= r <= max
  {
    var b := Bucket(str);
    DrawWithin(b, min, max);
    RoundHalfUp(1000 * min + b * (max - min), 1000)
  }

  // ---------------------------------------------------------------------
  // Base scores and growth

  /** The band a level's iReady base score is drawn from. */
  function IReadyBaseBand(level: PerformanceLevel): (int, int)
  {
    match level
    case High => (500, 560)
    case Average => (440, 510)
    case Struggling => (380, 430)
    case Failing => (350, 395)
  }

  /** The band a level's FAST base score is drawn from. */
  function FastBaseBand(level: PerformanceLevel): (int, int)
  {
    match level
    case High => (420, 480)
    case Average => (370, 430)
    case Struggling => (320, 370)
    case Failing => (300, 340)
  }

  function IReadyBaseScore(level: PerformanceLevel, studentId: string, source: string): (r: int)
    ensures IReadyBaseBand(level).0 <= r <= IReadyBaseBand(level).1
    ensures 350 <= r <= 560
  {
    var band := IReadyBaseBand(level);
    Seeded(studentId + source + "base", band.0, band.1)
  }

  function FastBaseScore(level: PerformanceLevel, studentId: string, source: string): (r: int)
    ensures FastBaseBand(level).0 <= r <= FastBaseBand(level).1
    ensures 300 <= r <= 480
  {
    var band := FastBaseBand(level);
    Seeded(studentId + source + "base", band.0, band.1)
  }

  /** The bands of the two growth steps: (g1 min, g1 max, g2 min, g2 max). */
  function GrowthBands(level: PerformanceLevel): (int, int, int, int)
  {
    match level
    case High => (8, 18, 5, 15)
    case Average => (5, 15, 3, 12)
    case Struggling => (-3, 8, -2, 6)
    case Failing => (-8, 3, -5, 2)
  }

  /** `[0, g1, g1 + g2]`: no growth at the first period, then two seeded steps. */
  function GetGrowthPattern(level: PerformanceLevel, studentId: string, source: string): (r: seq<int>)
    ensures |r| == 3 && r[0] == 0
    ensures GrowthBands(level).0 <= r[1] <= GrowthBands(level).1
    ensures GrowthBands(level).2 <= r[2] - r[1] <= GrowthBands(level).3
  {
    var b := GrowthBands(level);
    var g1 := Seeded(studentId + source + "g1", b.0, b.1);
    var g2 := Seeded(studentId + source + "g2", b.2, b.3);
    [0, g1, g1 + g2]
  }

  // ---------------------------------------------------------------------
  // Proficiency and percentile

  const BELOW: string := "Below"
  const APPROACHING: string := "Approaching"
  const ON_GRADE_LEVEL: string := "On Grade Level"
  const ABOVE_GRADE_LEVEL: string := "Above Grade Level"

  /** The four labels, lowest first. */
  const ProficiencyLabels: seq<string> := [BELOW, APPROACHING, ON_GRADE_LEVEL, ABOVE_GRADE_LEVEL]

  predicate IsIReady(source: string) { StartsWith(source, "iready") }

  /** The scores at which Approaching, On Grade Level and Above Grade Level begin. */
  function ProficiencyThresholds(source: string): (int, int, int)
  {
    if IsIReady(source) then (410, 460, 530) else (340, 380, 450)
  }

  /** How many of the three thresholds the score reaches. */
  function ThresholdsReached(source: string, score: int): (n: nat)
    ensures n <= 3
  {
    var t := ProficiencyThresholds(source);
    (if score >= t.0 then 1 else 0) + (if score >= t.1 then 1 else 0) + (if score >= t.2 then 1 else 0)
  }

  function GetProficiency(source: string, score: int): (r: string)
    ensures r in ProficiencyLabels
    ensures r == ProficiencyLabels[ThresholdsReached(source, score)]
  {
    if IsIReady(source) then
      if score >= 530 then ABOVE_GRADE_LEVEL
      else if score >= 460 then ON_GRADE_LEVEL
      else if score >= 410 then APPROACHING
      else BELOW
    else
      if score >= 450 then ABOVE_GRADE_LEVEL
      else if score >= 380 then ON_GRADE_LEVEL
      else if score >= 340 then APPROACHING
      else BELOW
  }

  /** The position of a label among the four, lowest first. */
  function ProficiencyRank(name: string): int
  {
    if name == BELOW then 0
    else if name == APPROACHING then 1
    else if name == ON_GRADE_LEVEL then 2
    else if name == ABOVE_GRADE_LEVEL then 3
    else -1
  }

  /** A higher score never earns a lower label. */
  lemma ProficiencyMonotone(source: string, lower: int, higher: int)
    requires lower <= higher
    ensures 0 <= ProficiencyRank(GetProficiency(source, lower))
              <= ProficiencyRank(GetProficiency(source, higher))
  {
    assert ThresholdsReached(source, lower) <= ThresholdsReached(source, higher);
  }

  /** The percentile the scale maps a score to, kept inside [1, 99]. */
  function GetPercentile(source: string, score: int): (r: int)
    ensures 1 <= r <= 99
  {
    if IsIReady(source) then
      // Math.round(((score - 350) / 250) * 90 + 5)
      Clamp(1, 99, RoundHalfUp(90 * (score - 350) + 5 * 250, 250))
    else
      Clamp(1, 99, RoundHalfUp(90 * (score - 300) + 5 * 200, 200))
  }

  // ---------------------------------------------------------------------
  // Generated records

  datatype AssessmentRecord = AssessmentRecord(
    studentId: string,
    source: string,
    period: string,
    score: int,
    percentile: Option<int>,
    proficiency: Option<string>)

  const IReadySources: seq<string> := ["iready-reading", "iready-math"]
  const IReadyPeriods: seq<string> := ["BOY", "MOY", "EOY"]
  const FastSources: seq<string> := ["fast-ela", "fast-math"]
  const FastPeriods: seq<string> := ["PM1", "PM2", "PM3"]

  /** The four sources in the order records are generated. */
  const AllSources: seq<string> := IReadySources + FastSources

  function PeriodsOf(source: string): seq<string>
  {
    if IsIReady(source) then IReadyPeriods else FastPeriods
  }

  /** The scale a source's scores are clamped to. */
  function ScoreScale(source: string): (int, int)
  {
    if IsIReady(source) then (350, 600) else (300, 500)
  }

  function BaseScore(level: PerformanceLevel, studentId: string, source: string): int
  {
    if IsIReady(source) then IReadyBaseScore(level, studentId, source)
    else FastBaseScore(level, studentId, source)
  }

  function MakeRecord(studentId: string, source: string, period: string, score: int): AssessmentRecord
  {
    AssessmentRecord(studentId, source, period, score,
                     Some(GetPercentile(source, score)), Some(GetProficiency(source, score)))
  }

  /** The records pushed for one source: period i gets the base score plus the
      i-th growth step, clamped to the scale. */
  function ScoredRecords(studentId: string, source: string, periods: seq<string>, base: int,
                         growth: seq<int>, scale: (int, int)): (r: seq<AssessmentRecord>)
    requires |periods| == 3 && |growth| == 3 && scale.0 <= scale.1
    ensures |r| == 3
  {
    seq(3, i requires 0 <= i < 3 =>
      MakeRecord(studentId, source, periods[i], Clamp(scale.0, scale.1, base + growth[i])))
  }

  /** The three records of one student and one source, in period order. */
  function SourceRecords(level: PerformanceLevel, studentId: string, source: string): (r: seq<AssessmentRecord>)
    ensures |r| == 3
  {
    ScoredRecords(studentId, source, PeriodsOf(source), BaseScore(level, studentId, source),
                  GetGrowthPattern(level, studentId, source), ScoreScale(source))
  }

  /** The records of one student for a list of sources, source by source. */
  function SourcesRecords(level: PerformanceLevel, studentId: string, sources: seq<string>): (r: seq<AssessmentRecord>)
    ensures |r| == 3 * |sources|
  {
    if sources == [] then []
    else SourcesRecords(level, studentId, sources[..|sources| - 1])
         + SourceRecords(level, studentId, sources[|sources| - 1])
  }

  /** The twelve records the loop pushes for one student: iReady first, then FAST. */
  function StudentRecords(level: PerformanceLevel, studentId: string): (r: seq<AssessmentRecord>)
    ensures |r| == 12
  {
    SourcesRecords(level, studentId, IReadySources) + SourcesRecords(level, studentId, FastSources)
  }

  /** The module-level list built from a list of ids, in loop order. */
  function AssessmentRecordsFor(levels: map<string, PerformanceLevel>, ids: seq<string>): (r: seq<AssessmentRecord>)
    ensures |r| == 12 * |ids|
  {
    if ids == [] then []
    else AssessmentRecordsFor(levels, ids[..|ids| - 1])
         + StudentRecords(LevelOf(levels, ids[|ids| - 1]), ids[|ids| - 1])
  }

  /** The pre-generated `assessmentRecords` of the demo. */
  function AllAssessmentRecords(): seq<AssessmentRecord>
  {
    AssessmentRecordsFor(PerformanceLevels, Students.AllStudentIds())
  }

  lemma ConcatAssoc<T>(a: seq<T>, b: seq<T>, c: seq<T>)
    ensures (a + b) + c == a + (b + c)
  {
  }

  lemma SourcesRecordsSnoc(level: PerformanceLevel, studentId: string, sources: seq<string>, s: int)
    requires 0 <= s < |sources|
    ensures SourcesRecords(level, studentId, sources[..s + 1])
            == SourcesRecords(level, studentId, sources[..s]) + SourceRecords(level, studentId, sources[s])
  {
    assert sources[..s + 1][..s] == sources[..s];
  }

  lemma AssessmentRecordsForSnoc(levels: map<string, PerformanceLevel>, ids: seq<string>, k: int)
    requires 0 <= k < |ids|
    ensures AssessmentRecordsFor(levels, ids[..k + 1])
            == AssessmentRecordsFor(levels, ids[..k]) + StudentRecords(LevelOf(levels, ids[k]), ids[k])
  {
    assert ids[..k + 1][..k] == ids[..k];
  }

  /** The module-level generation loop: for each id, for each iReady source then
      each FAST source, push one record per period. */
  method GenerateAssessmentRecords(levels: map<string, PerformanceLevel>, ids: seq<string>)
    returns (records: seq<AssessmentRecord>)
    ensures records == AssessmentRecordsFor(levels, ids)
  {
    records := [];
    var k := 0;
    while k < |ids|
      invariant 0 <= k <= |ids|
      invariant records == AssessmentRecordsFor(levels, ids[..k])
    {
      var studentId := ids[k];
      var level := LevelOf(levels, studentId);
      ghost var before := records;
      records := PushSources(records, level, studentId, IReadySources);
      records := PushSources(records, level, studentId, FastSources);
      ConcatAssoc(before, SourcesRecords(level, studentId, IReadySources),
                  SourcesRecords(level, studentId, FastSources));
      AssessmentRecordsForSnoc(levels, ids, k);
      k := k + 1;
    }
    assert ids[..k] == ids;
  }

  /** One `for (const source of sources)` block of the loop. */
  method PushSources(records0: seq<AssessmentRecord>, level: PerformanceLevel, studentId: string,
                     sources: seq<string>)
    returns (records: seq<AssessmentRecord>)
    ensures records == records0 + SourcesRecords(level, studentId, sources)
  {
    records := records0;
    var s := 0;
    while s < |sources|
      invariant 0 <= s <= |sources|
      invariant records == records0 + SourcesRecords(level, studentId, sources[..s])
    {
      records := PushPeriods(records, level, studentId, sources[s]);
      SourcesRecordsSnoc(level, studentId, sources, s);
      ConcatAssoc(records0, SourcesRecords(level, studentId, sources[..s]),
                  SourceRecords(level, studentId, sources[s]));
      s := s + 1;
    }
    assert sources[..s] == sources;
  }

  /** The body for one source: the base score and growth pattern are drawn
      once, then one clamped score is pushed per period. */
  method PushPeriods(records0: seq<AssessmentRecord>, level: PerformanceLevel, studentId: string,
                     source: string)
    returns (records: seq<AssessmentRecord>)
    ensures records == records0 + SourceRecords(level, studentId, source)
  {
    var base := BaseScore(level, studentId, source);
    var growth := GetGrowthPattern(level, studentId, source);
    records := PushScores(records0, studentId, source, PeriodsOf(source), base, growth, ScoreScale(source));
  }

  /** The innermost loop over the periods. */
  method PushScores(records0: seq<AssessmentRecord>, studentId: string, source: string,
                    periods: seq<string>, base: int, growth: seq<int>, scale: (int, int))
    returns (records: seq<AssessmentRecord>)
    requires |periods| == 3 && |growth| == 3 && scale.0 <= scale.1
    ensures records == records0 + ScoredRecords(studentId, source, periods, base, growth, scale)
  {
    ghost var block := ScoredRecords(studentId, source, periods, base, growth, scale);
    records := records0;
    var i := 0;
    while i < |periods|
      invariant 0 <= i <= 3
      invariant records == records0 + block[..i]
    {
      var score := Clamp(scale.0, scale.1, base + growth[i]);
      records := records + [MakeRecord(studentId, source, periods[i], score)];
      assert block[..i + 1] == block[..i] + [block[i]];
      i := i + 1;
    }
    assert block[..3] == block;
  }

  // ---------------------------------------------------------------------
  // What the generated records look like

  /** Facts about one block of three records, whatever the base and growth. */
  lemma ScoredRecordsFacts(studentId: string, source: string, periods: seq<string>, base: int,
                           growth: seq<int>, scale: (int, int))
    requires |periods| == 3 && |growth| == 3 && scale.0 <= scale.1
    ensures var r := ScoredRecords(studentId, source, periods, base, growth, scale);
            (forall i :: 0 <= i < 3 ==>
               r[i].studentId == studentId && r[i].source == source && r[i].period == periods[i]
               && scale.0 <= r[i].score <= scale.1
               && r[i].percentile == Some(GetPercentile(source, r[i].score))
               && r[i].proficiency == Some(GetProficiency(source, r[i].score)))
            && r[0].score == Clamp(scale.0, scale.1, base + growth[0])
  {
  }

  /** The three records of a source carry the student and source, follow the
      source's period order, keep scores on the source's scale with matching
      percentile and proficiency, and start at the clamped base score because
      the first growth step is 0. */
  lemma SourceRecordsFacts(level: PerformanceLevel, studentId: string, source: string)
    ensures var r := SourceRecords(level, studentId, source);
            var scale := ScoreScale(source);
            (forall i :: 0 <= i < 3 ==>
               r[i].studentId == studentId && r[i].source == source
               && r[i].period == PeriodsOf(source)[i]
               && scale.0 <= r[i].score <= scale.1
               && r[i].percentile == Some(GetPercentile(source, r[i].score))
               && r[i].proficiency == Some(GetProficiency(source, r[i].score)))
            && r[0].score == Clamp(scale.0, scale.1, BaseScore(level, studentId, source))
  {
    var growth := GetGrowthPattern(level, studentId, source);
    ScoredRecordsFacts(studentId, source, PeriodsOf(source), BaseScore(level, studentId, source),
                       growth, ScoreScale(source));
  }

  lemma SourcesRecordsPair(level: PerformanceLevel, studentId: string, sources: seq<string>)
    requires |sources| == 2
    ensures SourcesRecords(level, studentId, sources)
            == SourceRecords(level, studentId, sources[0]) + SourceRecords(level, studentId, sources[1])
  {
    assert sources[..1][..0] == [];
    assert SourcesRecords(level, studentId, sources[..1]) == [] + SourceRecords(level, studentId, sources[0]);
  }

  /** A student's twelve records are the four sources' blocks of three, in
      the order iready-reading, iready-math, fast-ela, fast-math. */
  lemma StudentRecordsBlocks(level: PerformanceLevel, studentId: string)
    ensures StudentRecords(level, studentId)
            == SourceRecords(level, studentId, AllSources[0]) + SourceRecords(level, studentId, AllSources[1])
               + SourceRecords(level, studentId, AllSources[2]) + SourceRecords(level, studentId, AllSources[3])
  {
    SourcesRecordsPair(level, studentId, IReadySources);
    SourcesRecordsPair(level, studentId, FastSources);
    ConcatAssoc(SourceRecords(level, studentId, AllSources[0]) + SourceRecords(level, studentId, AllSources[1]),
                SourceRecords(level, studentId, AllSources[2]), SourceRecords(level, studentId, AllSources[3]));
  }

  predicate OwnedBy(rs: seq<AssessmentRecord>, studentId: string)
  {
    forall i :: 0 <= i < |rs| ==> rs[i].studentId == studentId
  }

  lemma OwnedByAppend(a: seq<AssessmentRecord>, b: seq<AssessmentRecord>, studentId: string)
    requires OwnedBy(a, studentId) && OwnedBy(b, studentId)
    ensures OwnedBy(a + b, studentId)
  {
  }

  /** All twelve of a student's generated records belong to that student. */
  lemma StudentRecordsOwner(level: PerformanceLevel, studentId: string)
    ensures OwnedBy(StudentRecords(level, studentId), studentId)
  {
    var r0 := SourceRecords(level, studentId, AllSources[0]);
    var r1 := SourceRecords(level, studentId, AllSources[1]);
    var r2 := SourceRecords(level, studentId, AllSources[2]);
    var r3 := SourceRecords(level, studentId, AllSources[3]);
    SourceRecordsFacts(level, studentId, AllSources[0]);
    SourceRecordsFacts(level, studentId, AllSources[1]);
    SourceRecordsFacts(level, studentId, AllSources[2]);
    SourceRecordsFacts(level, studentId, AllSources[3]);
    OwnedByAppend(r0, r1, studentId);
    OwnedByAppend(r0 + r1, r2, studentId);
    OwnedByAppend(r0 + r1 + r2, r3, studentId);
    StudentRecordsBlocks(level, studentId);
  }

  /** A record as the generator makes them: the score on its source's scale,
      a percentile in [1, 99] and one of the four labels. */
  predicate WellScored(a: AssessmentRecord)
  {
    ScoreScale(a.source).0 <= a.score <= ScoreScale(a.source).1
    && a.percentile.Some? && 1 <= a.percentile.value <= 99
    && a.proficiency.Some? && a.proficiency.value in ProficiencyLabels
  }

  predicate AllWellScored(rs: seq<AssessmentRecord>)
  {
    forall i :: 0 <= i < |rs| ==> WellScored(rs[i])
  }

  lemma AllWellScoredAppend(a: seq<AssessmentRecord>, b: seq<AssessmentRecord>)
    requires AllWellScored(a) && AllWellScored(b)
    ensures AllWellScored(a + b)
  {
  }

  lemma SourceRecordsWellScored(level: PerformanceLevel, studentId: string, source: string)
    ensures AllWellScored(SourceRecords(level, studentId, source))
  {
    SourceRecordsFacts(level, studentId, source);
  }

  lemma StudentRecordsWellScored(level: PerformanceLevel, studentId: string)
    ensures AllWellScored(StudentRecords(level, studentId))
  {
    var b0 := SourceRecords(level, studentId, AllSources[0]);
    var b1 := SourceRecords(level, studentId, AllSources[1]);
    var b2 := SourceRecords(level, studentId, AllSources[2]);
    var b3 := SourceRecords(level, studentId, AllSources[3]);
    SourceRecordsWellScored(level, studentId, AllSources[0]);
    SourceRecordsWellScored(level, studentId, AllSources[1]);
    SourceRecordsWellScored(level, studentId, AllSources[2]);
    SourceRecordsWellScored(level, studentId, AllSources[3]);
    AllWellScoredAppend(b0, b1);
    AllWellScoredAppend(b0 + b1, b2);
    AllWellScoredAppend(b0 + b1 + b2, b3);
    StudentRecordsBlocks(level, studentId);
  }

  /** Every generated iReady score lies in [350, 600] and every FAST score in
      [300, 500], with a percentile in [1, 99] and one of the four labels. */
  lemma {:induction false} GeneratedRecordsWellScored(levels: map<string, PerformanceLevel>, ids: seq<string>)
    ensures AllWellScored(AssessmentRecordsFor(levels, ids))
  {
    if ids != [] {
      var front := ids[..|ids| - 1];
      var id := ids[|ids| - 1];
      GeneratedRecordsWellScored(levels, front);
      StudentRecordsWellScored(LevelOf(levels, id), id);
      AllWellScoredAppend(AssessmentRecordsFor(levels, front), StudentRecords(LevelOf(levels, id), id));
    }
  }

  // ---------------------------------------------------------------------
  // Queries

  /** `assessmentRecords.filter(r => r.studentId === studentId)`. */
  function GetStudentAssessments(records: seq<AssessmentRecord>, studentId: string): (r: seq<AssessmentRecord>)
    ensures IsSubseq(r, records)
    ensures forall i :: 0 <= i < |r| ==> r[i].studentId == studentId
    ensures forall i :: 0 <= i < |records| && records[i].studentId == studentId ==> records[i] in r
  {
    var p := (a: AssessmentRecord) => a.studentId == studentId;
    FilterIsSubseq(records, p);
    FilterMembers(records, p);
    Filter(records, p)
  }

  /** For a generated list over distinct ids, a listed student's records are
      exactly the twelve generated for them, and anyone else has none. */
  lemma {:induction false} StudentAssessmentsOfGenerated(levels: map<string, PerformanceLevel>,
                                                        ids: seq<string>, studentId: string)
    requires NoDup(ids)
    ensures GetStudentAssessments(AssessmentRecordsFor(levels, ids), studentId)
            == if studentId in ids then StudentRecords(LevelOf(levels, studentId), studentId) else []
  {
    var p := (a: AssessmentRecord) => a.studentId == studentId;
    if ids != [] {
      var front := ids[..|ids| - 1];
      var id := ids[|ids| - 1];
      assert NoDup(front);
      StudentAssessmentsOfGenerated(levels, front, studentId);
      var block := StudentRecords(LevelOf(levels, id), id);
      assert AssessmentRecordsFor(levels, ids) == AssessmentRecordsFor(levels, front) + block;
      FilterAppend(AssessmentRecordsFor(levels, front), block, p);
      StudentRecordsOwner(LevelOf(levels, id), id);
      if id == studentId {
        FilterAll(block, p);
        assert studentId !in front;
      } else {
        FilterNone(block, p);
      }
    }
  }

  datatype TrendPoint = TrendPoint(name: string, score: int, benchmark: int)

  /** The benchmark line: 460 on the iReady scale, 380 on the FAST scale. */
  function Benchmark(source: string): int
  {
    if IsIReady(source) then 460 else 380
  }

  /** The test `getAssessmentTrend` filters by. */
  function TrendTest(studentId: string, source: string): AssessmentRecord -> bool
  {
    (a: AssessmentRecord) => a.studentId == studentId && a.source == source
  }

  /** `getAssessmentTrend`: one point per record of that student and source, in
      record order, each carrying the source's benchmark. */
  function GetAssessmentTrend(records: seq<AssessmentRecord>, studentId: string, source: string)
    : (r: seq<TrendPoint>)
    ensures var matching := Filter(records, TrendTest(studentId, source));
            |r| == |matching|
            && forall i :: 0 <= i < |r| ==>
                 r[i] == TrendPoint(matching[i].period, matching[i].score, Benchmark(source))
  {
    var matching := Filter(records, TrendTest(studentId, source));
    seq(|matching|, i requires 0 <= i < |matching| =>
      TrendPoint(matching[i].period, matching[i].score, Benchmark(source)))
  }

  function SourceTest(source: string): AssessmentRecord -> bool
  {
    (a: AssessmentRecord) => a.source == source
  }

  /** Four parts of which only the k-th is non-empty concatenate to that part. */
  lemma OnlyOneOfFour(f0: seq<AssessmentRecord>, f1: seq<AssessmentRecord>, f2: seq<AssessmentRecord>,
                      f3: seq<AssessmentRecord>, k: int, target: seq<AssessmentRecord>)
    requires 0 <= k < 4
    requires f0 == (if k == 0 then target else []) && f1 == (if k == 1 then target else [])
    requires f2 == (if k == 2 then target else []) && f3 == (if k == 3 then target else [])
    ensures f0 + f1 + f2 + f3 == target
  {
    assert target + [] == target && [] + target == target;
  }

  lemma SourceOfBlock(level: PerformanceLevel, studentId: string, j: int, k: int)
    requires 0 <= j < 4 && 0 <= k < 4
    ensures Filter(SourceRecords(level, studentId, AllSources[j]), SourceTest(AllSources[k]))
            == if j == k then SourceRecords(level, studentId, AllSources[j]) else []
  {
    AllSourcesDistinct();
    SourceRecordsFacts(level, studentId, AllSources[j]);
    if j == k {
      FilterAll(SourceRecords(level, studentId, AllSources[j]), SourceTest(AllSources[k]));
    } else {
      FilterNone(SourceRecords(level, studentId, AllSources[j]), SourceTest(AllSources[k]));
    }
  }

  /** Picking one source out of a student's twelve records gives that
      source's block of three. */
  lemma SourceOfStudent(level: PerformanceLevel, studentId: string, k: int)
    requires 0 <= k < 4
    ensures Filter(StudentRecords(level, studentId), SourceTest(AllSources[k]))
            == SourceRecords(level, studentId, AllSources[k])
  {
    var p := SourceTest(AllSources[k]);
    var b0 := SourceRecords(level, studentId, AllSources[0]);
    var b1 := SourceRecords(level, studentId, AllSources[1]);
    var b2 := SourceRecords(level, studentId, AllSources[2]);
    var b3 := SourceRecords(level, studentId, AllSources[3]);
    StudentRecordsBlocks(level, studentId);
    FilterFour(b0, b1, b2, b3, p);
    SourceOfBlock(level, studentId, 0, k);
    SourceOfBlock(level, studentId, 1, k);
    SourceOfBlock(level, studentId, 2, k);
    SourceOfBlock(level, studentId, 3, k);
    OnlyOneOfFour(Filter(b0, p), Filter(b1, p), Filter(b2, p), Filter(b3, p), k,
                  SourceRecords(level, studentId, AllSources[k]));
  }

  /** On generated data a listed student's trend for any of the four sources
      has one point per period, in period order, starting at the clamped base
      score. */
  lemma TrendOfGenerated(levels: map<string, PerformanceLevel>, ids: seq<string>, studentId: string, k: int)
    requires NoDup(ids) && studentId in ids && 0 <= k < 4
    ensures var source := AllSources[k];
            var trend := GetAssessmentTrend(AssessmentRecordsFor(levels, ids), studentId, source);
            var scale := ScoreScale(source);
            |trend| == 3
            && (forall i :: 0 <= i < 3 ==>
                  trend[i].name == PeriodsOf(source)[i] && trend[i].benchmark == Benchmark(source)
                  && scale.0 <= trend[i].score <= scale.1)
            && trend[0].score == Clamp(scale.0, scale.1, BaseScore(LevelOf(levels, studentId), studentId, source))
  {
    var source := AllSources[k];
    var records := AssessmentRecordsFor(levels, ids);
    var level := LevelOf(levels, studentId);
    FilterConj(records, (a: AssessmentRecord) => a.studentId == studentId, SourceTest(source),
               TrendTest(studentId, source));
    StudentAssessmentsOfGenerated(levels, ids, studentId);
    SourceOfStudent(level, studentId, k);
    SourceRecordsFacts(level, studentId, source);
  }

  /** The last period of a source's year: EOY for iReady, PM3 for FAST. */
  function LatestPeriod(source: string): string
  {
    if IsIReady(source) then "EOY" else "PM3"
  }

  predicate IsLatest(a: AssessmentRecord, source: string)
  {
    a.source == source && a.period == LatestPeriod(source)
  }

  /** The test `getClassProficiency` filters by. */
  function LatestTest(source: string): AssessmentRecord -> bool
  {
    (a: AssessmentRecord) => IsLatest(a, source)
  }

  /** The records of the source's latest period, in record order. */
  function LatestRecords(records: seq<AssessmentRecord>, source: string): (r: seq<AssessmentRecord>)
    ensures IsSubseq(r, records)
    ensures forall i :: 0 <= i < |r| ==> IsLatest(r[i], source)
    ensures forall i :: 0 <= i < |records| && IsLatest(records[i], source) ==> records[i] in r
  {
    FilterIsSubseq(records, LatestTest(source));
    FilterMembers(records, LatestTest(source));
    Filter(records, LatestTest(source))
  }

  /** The four tallies `getClassProficiency` returns. */
  datatype ProficiencyCounts = ProficiencyCounts(below: nat, approaching: nat, meets: nat, exceeds: nat)

  function Total(c: ProficiencyCounts): nat
  {
    c.below + c.approaching + c.meets + c.exceeds
  }

  /** One turn of the switch: a record whose proficiency is none of the four
      labels (or missing) is not counted. */
  function Tally(c: ProficiencyCounts, proficiency: Option<string>): ProficiencyCounts
  {
    if proficiency == Some(BELOW) then c.(below := c.below + 1)
    else if proficiency == Some(APPROACHING) then c.(approaching := c.approaching + 1)
    else if proficiency == Some(ON_GRADE_LEVEL) then c.(meets := c.meets + 1)
    else if proficiency == Some(ABOVE_GRADE_LEVEL) then c.(exceeds := c.exceeds + 1)
    else c
  }

  /** The tallies of a list of records, counted front to back. */
  function CountProficiencies(rs: seq<AssessmentRecord>): ProficiencyCounts
  {
    if rs == [] then ProficiencyCounts(0, 0, 0, 0)
    else Tally(CountProficiencies(rs[..|rs| - 1]), rs[|rs| - 1].proficiency)
  }

  predicate HasLabel(a: AssessmentRecord, name: string)
  {
    a.proficiency == Some(name)
  }

  predicate HasAnyLabel(a: AssessmentRecord)
  {
    a.proficiency.Some? && a.proficiency.value in ProficiencyLabels
  }

  /** Each tally is the number of records carrying that label, and together
      they count exactly the records whose proficiency is one of the four. */
  lemma {:induction false} CountsAreLabelCounts(rs: seq<AssessmentRecord>)
    ensures var c := CountProficiencies(rs);
            c.below == |Filter(rs, (a: AssessmentRecord) => HasLabel(a, BELOW))|
            && c.approaching == |Filter(rs, (a: AssessmentRecord) => HasLabel(a, APPROACHING))|
            && c.meets == |Filter(rs, (a: AssessmentRecord) => HasLabel(a, ON_GRADE_LEVEL))|
            && c.exceeds == |Filter(rs, (a: AssessmentRecord) => HasLabel(a, ABOVE_GRADE_LEVEL))|
            && Total(c) == |Filter(rs, HasAnyLabel)|
  {
    if rs != [] {
      CountsAreLabelCounts(rs[..|rs| - 1]);
      FilterSnoc(rs, (a: AssessmentRecord) => HasLabel(a, BELOW));
      FilterSnoc(rs, (a: AssessmentRecord) => HasLabel(a, APPROACHING));
      FilterSnoc(rs, (a: AssessmentRecord) => HasLabel(a, ON_GRADE_LEVEL));
      FilterSnoc(rs, (a: AssessmentRecord) => HasLabel(a, ABOVE_GRADE_LEVEL));
      FilterSnoc(rs, HasAnyLabel);
    }
  }

  lemma CountProficienciesSnoc(rs: seq<AssessmentRecord>, k: int)
    requires 0 <= k < |rs|
    ensures CountProficiencies(rs[..k + 1]) == Tally(CountProficiencies(rs[..k]), rs[k].proficiency)
  {
    assert rs[..k + 1][..k] == rs[..k];
  }

  /** The switch loop both pages run: each record adds one to the tally of
      its label, and a record without one of the four labels adds nothing. */
  method TallyProficiencies(rs: seq<AssessmentRecord>) returns (result: ProficiencyCounts)
    ensures result == CountProficiencies(rs)
  {
    result := ProficiencyCounts(0, 0, 0, 0);
    var k := 0;
    while k < |rs|
      invariant 0 <= k <= |rs|
      invariant result == CountProficiencies(rs[..k])
    {
      var r := rs[k];
      if r.proficiency == Some(BELOW) {
        result := result.(below := result.below + 1);
      } else if r.proficiency == Some(APPROACHING) {
        result := result.(approaching := result.approaching + 1);
      } else if r.proficiency == Some(ON_GRADE_LEVEL) {
        result := result.(meets := result.meets + 1);
      } else if r.proficiency == Some(ABOVE_GRADE_LEVEL) {
        result := result.(exceeds := result.exceeds + 1);
      }
      CountProficienciesSnoc(rs, k);
      k := k + 1;
    }
    assert rs[..k] == rs;
  }

  /** `getClassProficiency`: the latest-period records of the source, tallied
      by proficiency label. */
  method GetClassProficiency(records: seq<AssessmentRecord>, source: string)
    returns (result: ProficiencyCounts)
    ensures result == CountProficiencies(LatestRecords(records, source))
  {
    result := TallyProficiencies(LatestRecords(records, source));
  }

  predicate AllLabelled(rs: seq<AssessmentRecord>)
  {
    forall i :: 0 <= i < |rs| ==> HasAnyLabel(rs[i])
  }

  /** Within the block of the j-th source, only the last record is of the
      k-th source's latest period, and only when j is k. */
  lemma LatestOfSourceBlock(level: PerformanceLevel, studentId: string, j: int, k: int)
    requires 0 <= j < 4 && 0 <= k < 4
    ensures var latest := Filter(SourceRecords(level, studentId, AllSources[j]), LatestTest(AllSources[k]));
            |latest| == (if j == k then 1 else 0) && AllLabelled(latest)
  {
    AllSourcesDistinct();
    SourceRecordsFacts(level, studentId, AllSources[j]);
    FilterThree(SourceRecords(level, studentId, AllSources[j]), LatestTest(AllSources[k]));
  }

  lemma AllLabelledAppend(a: seq<AssessmentRecord>, b: seq<AssessmentRecord>)
    requires AllLabelled(a) && AllLabelled(b)
    ensures AllLabelled(a + b)
  {
  }

  lemma AllSourcesDistinct()
    ensures forall i, j :: 0 <= i < j < |AllSources| ==> AllSources[i] != AllSources[j]
  {
  }

  /** Four blocks of which exactly the k-th has one selected element. */
  lemma OneOfFour(b0: seq<AssessmentRecord>, b1: seq<AssessmentRecord>, b2: seq<AssessmentRecord>,
                  b3: seq<AssessmentRecord>, k: int)
    requires 0 <= k < 4
    requires |b0| == (if k == 0 then 1 else 0) && |b1| == (if k == 1 then 1 else 0)
    requires |b2| == (if k == 2 then 1 else 0) && |b3| == (if k == 3 then 1 else 0)
    requires AllLabelled(b0) && AllLabelled(b1) && AllLabelled(b2) && AllLabelled(b3)
    ensures |b0 + b1 + b2 + b3| == 1 && AllLabelled(b0 + b1 + b2 + b3)
  {
  }

  /** Each student contributes exactly one latest-period record per source,
      and it carries one of the four labels. */
  lemma LatestOfStudent(level: PerformanceLevel, studentId: string, k: int)
    requires 0 <= k < 4
    ensures var latest := Filter(StudentRecords(level, studentId), LatestTest(AllSources[k]));
            |latest| == 1 && AllLabelled(latest)
  {
    var p := LatestTest(AllSources[k]);
    var b0 := SourceRecords(level, studentId, AllSources[0]);
    var b1 := SourceRecords(level, studentId, AllSources[1]);
    var b2 := SourceRecords(level, studentId, AllSources[2]);
    var b3 := SourceRecords(level, studentId, AllSources[3]);
    StudentRecordsBlocks(level, studentId);
    FilterFour(b0, b1, b2, b3, p);
    LatestOfSourceBlock(level, studentId, 0, k);
    LatestOfSourceBlock(level, studentId, 1, k);
    LatestOfSourceBlock(level, studentId, 2, k);
    LatestOfSourceBlock(level, studentId, 3, k);
    OneOfFour(Filter(b0, p), Filter(b1, p), Filter(b2, p), Filter(b3, p), k);
  }

  /** On generated data the class tallies of any of the four sources add up to
      the number of students: every student has exactly one latest record
      there, with a known label. */
  lemma {:induction false} ClassProficiencyCoversClass(levels: map<string, PerformanceLevel>,
                                                      ids: seq<string>, source: string)
    requires source in AllSources
    ensures Total(CountProficiencies(LatestRecords(AssessmentRecordsFor(levels, ids), source))) == |ids|
  {
    var latest := LatestRecords(AssessmentRecordsFor(levels, ids), source);
    CountsAreLabelCounts(latest);
    LatestAllLabelled(levels, ids, source);
    FilterAll(latest, HasAnyLabel);
    assert Filter(latest, HasAnyLabel) == latest;
  }

  lemma {:induction false} LatestAllLabelled(levels: map<string, PerformanceLevel>,
                                            ids: seq<string>, source: string)
    requires source in AllSources
    ensures var latest := LatestRecords(AssessmentRecordsFor(levels, ids), source);
            |latest| == |ids| && AllLabelled(latest)
  {
    if ids != [] {
      var front := ids[..|ids| - 1];
      var id := ids[|ids| - 1];
      LatestAllLabelled(levels, front, source);
      var block := StudentRecords(LevelOf(levels, id), id);
      assert AssessmentRecordsFor(levels, ids) == AssessmentRecordsFor(levels, front) + block;
      FilterAppend(AssessmentRecordsFor(levels, front), block, LatestTest(source));
      var k :| 0 <= k < 4 && AllSources[k] == source;
      LatestOfStudent(LevelOf(levels, id), id, k);
      AllLabelledAppend(LatestRecords(AssessmentRecordsFor(levels, front), source),
                        Filter(block, LatestTest(source)));
    }
  }

  /** One entry of `getStudentLatestScores`. */
  datatype LatestScore = LatestScore(score: int, proficiency: string)

  /** The test that finds a student's latest record of a source. */
  function StudentLatestTest(studentId: string, source: string): AssessmentRecord -> bool
  {
    (a: AssessmentRecord) => a.studentId == studentId && IsLatest(a, source)
  }

  /** `{ score, proficiency: record.proficiency || 'Unknown' }`: a missing or
      empty label reads as Unknown. */
  function EntryOf(record: AssessmentRecord): (e: LatestScore)
    ensures e.score == record.score
    ensures e.proficiency == "Unknown" <==> record.proficiency.None? || record.proficiency.value in {"", "Unknown"}
  {
    LatestScore(record.score,
                if record.proficiency.Some? && record.proficiency.value != "" then record.proficiency.value
                else "Unknown")
  }

  /** `getStudentLatestScores`: for each of the four sources for which the
      student has a record of the latest period, the first such record's score
      and label; sources without one are absent. */
  method GetStudentLatestScores(records: seq<AssessmentRecord>, studentId: string)
    returns (result: map<string, LatestScore>)
    ensures forall source :: source in result <==>
              source in AllSources && Find(records, StudentLatestTest(studentId, source)).Some?
    ensures forall source :: source in result ==>
              result[source] == EntryOf(Find(records, StudentLatestTest(studentId, source)).value)
  {
    result := map[];
    var k := 0;
    while k < |AllSources|
      invariant 0 <= k <= |AllSources|
      invariant forall source :: source in result <==>
                  source in AllSources[..k] && Find(records, StudentLatestTest(studentId, source)).Some?
      invariant forall source :: source in result ==>
                  result[source] == EntryOf(Find(records, StudentLatestTest(studentId, source)).value)
    {
      var source := AllSources[k];
      var record := Find(records, StudentLatestTest(studentId, source));
      if record.Some? {
        result := result[source := EntryOf(record.value)];
      }
      assert AllSources[..k + 1] == AllSources[..k] + [source];
      k := k + 1;
    }
    assert AllSources[..k] == AllSources;
  }
}
