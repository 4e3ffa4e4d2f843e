# WASABI landing demo — a Dafny model

WASABI is a school-analytics product. Its landing site embeds a
click-through demo of the dashboard that runs entirely on generated data
for a class of thirty students. This project models the logic of that
demo and proves what it promises.

**Data layer.**
- The thirty-student roster.
- The seeded generators for assessments, grades and attendance. Each is
  driven by one 32-bit string hash.
- The discipline log.
- The four flagging rules.
- The queries built on these: per-student records, trends, GPAs, rates,
  latest scores, proficiency tallies, flagged students and the discipline
  summary.

**Pages and widgets.**
- The profile search and its sortable, checkable result table.
- The header's suggestion box, the sidebar and the guided tour.
- The profile card and the report builder.
- The class, grade and exam analytics pages and the observation page.
- The two Nori chat assistants, the full page and the floating bubble:
  which intent a message triggers, which students the reply picks, the
  send guard and the bold-text rendering.
- The landing page's animated hero card and the scripted chat showcase.
- The avatar badge, the theme switch and the viewport zoom.

**Style of the model.**
- Code that only computes is modelled as datatypes, functions and lemmas.
- Every generated list is built by a method with a loop. Each such method
  is proved equal to a specification function.
- Every component whose handlers update state is a class. Its methods
  state the whole new state: each field they change, and that every other
  field, of the component and of the shared context, keeps its value
  (directly, or through the class invariant that ties it to another).
- Each timer callback is a method that is enabled only in the phase that
  scheduled it.
- `navigate` sets the `route` field of the shared context.

**Numbers.**
- Rates are integers in tenths of a percent, and GPAs are integers in
  hundredths.
- `Math.round` of an exact quotient is rounding half up on rationals.
- The 32-bit wrap-around of the hash is written out explicitly.

## Model

| member | source | states |
|---|---|---|
| Students.GetStudentById | src/data/students.ts:56-58 | nothing exactly when no roster student has the id; otherwise the first roster student carrying that id |
| Students.GetStudentsByGrade | src/data/students.ts:60-62 | a roster-order subsequence holding every student of that grade and no other |
| Students.GetStudentsByHomeroom | src/data/students.ts:64-66 | a roster-order subsequence holding every student of that homeroom and no other |
| Students.StudentIdInjective | src/data/grades.ts:104 | two numbers below 1000 with the same `STU` + three-digit id are equal |
| Students.AllStudentIdsDistinct | src/data/assessments.ts:123 | the 30 generated ids STU001..STU030 are pairwise distinct |
| Students.RosterGrades | src/data/students.ts:12-54 | the i-th roster student is in grade K, 1, 2, 3, 4, 5 for blocks of five |
| Students.RosterLayout | src/data/students.ts:12-54 | the roster has 30 students whose ids are exactly the generated ids in order, so no id repeats, five per grade K to 5 |
| Hashing.Wrap32 | src/data/assessments.ts:36 | `x \| 0`: the int32 congruent to x modulo 2^32, and x itself when x already fits |
| Hashing.Wrap32Congruent | src/data/assessments.ts:35-36 | integers congruent modulo 2^32 wrap to the same int32 |
| Hashing.HashStep | src/data/assessments.ts:35-36 | one loop step always yields an int32 |
| Hashing.HashStepIsTimes31 | src/data/assessments.ts:35-36 | the shift-and-subtract step equals `31·h + c` wrapped to int32 |
| Hashing.HashOf | src/data/assessments.ts:33-37 | the hash of a string is an int32 |
| Hashing.HashOfIsPolynomial | src/data/assessments.ts:33-37 | the hash is the exact polynomial sum of c·31^k wrapped once to int32 |
| Hashing.StringHash | src/data/assessments.ts:33-37 | the loop leaves exactly the hash of the string in `hash`, an int32 |
| Hashing.Bucket | src/data/assessments.ts:38 | `Math.abs(hash) % 1000` lies in [0, 1000) |
| Assessments.DrawWithin | src/data/assessments.ts:38-39 | `Math.round(min + b/1000·(max − min))` stays within [min, max] for a bucket b in [0, 1000) |
| Assessments.Seeded | src/data/assessments.ts:32-40 | for min ≤ max the seeded value lies in [min, max] |
| Assessments.IReadyBaseScore | src/data/assessments.ts:44-51 | the base score lies in the level's band (500–560, 440–510, 380–430, 350–395), hence in [350, 560] |
| Assessments.FastBaseScore | src/data/assessments.ts:55-62 | the base score lies in the level's band (420–480, 370–430, 320–370, 300–340), hence in [300, 480] |
| Assessments.GetGrowthPattern | src/data/assessments.ts:92-118 | three offsets `[0, g1, g1 + g2]` with g1 and g2 in the level's two bands |
| Assessments.GetProficiency | src/data/assessments.ts:64-77 | one of the four labels, picked by how many of the source's thresholds (530/460/410 iReady, 450/380/340 FAST) the score reaches |
| Assessments.ProficiencyMonotone | src/data/assessments.ts:64-77 | a higher score never earns a lower label |
| Assessments.GetPercentile | src/data/assessments.ts:79-89 | the percentile lies in [1, 99] |
| Assessments.ScoredRecordsFacts | src/data/assessments.ts:138-147 | each of the three pushed records carries the student, source and i-th period, a score clamped to the scale with its percentile and label, and the first score is the clamped base plus the first offset |
| Assessments.SourceRecordsFacts | src/data/assessments.ts:134-166 | a source's three records follow its period order BOY/MOY/EOY or PM1/PM2/PM3, stay on its scale, and start at the clamped base score |
| Assessments.StudentRecordsBlocks | src/data/assessments.ts:130-168 | a student's twelve records are the blocks of iready-reading, iready-math, fast-ela, fast-math in that order |
| Assessments.StudentRecordsOwner | src/data/assessments.ts:140-141 | all twelve records of a student carry that student's id |
| Assessments.GenerateAssessmentRecords | src/data/assessments.ts:121-168 | the nested loops build exactly the list the generation function describes, student by student |
| Assessments.PushSources | src/data/assessments.ts:134-167 | one `for (const source of …)` block appends exactly that student's records for those sources |
| Assessments.PushPeriods | src/data/assessments.ts:135-148 | the body for one source appends exactly its three records |
| Assessments.PushScores | src/data/assessments.ts:138-148 | the period loop appends exactly the three clamped records |
| Assessments.GeneratedRecordsWellScored | src/data/assessments.ts:139 | every generated iReady score lies in [350, 600] and every FAST score in [300, 500], each with a percentile in [1, 99] and one of the four labels |
| Assessments.GetStudentAssessments | src/data/assessments.ts:170-172 | a record-order subsequence holding exactly the student's records |
| Assessments.StudentAssessmentsOfGenerated | src/data/assessments.ts:130-172 | on generated data over distinct ids, a listed student's records are exactly their twelve, anyone else has none |
| Assessments.GetAssessmentTrend | src/data/assessments.ts:174-185 | one point per record of that student and source, in order, with benchmark 460 for iReady and 380 otherwise |
| Assessments.SourceOfStudent | src/data/assessments.ts:175 | picking one source from a student's twelve records gives that source's block of three |
| Assessments.TrendOfGenerated | src/data/assessments.ts:174-185 | on generated data a listed student's trend has three points in period order, on the scale, with the right benchmark, the first at the clamped base score |
| Assessments.LatestRecords | src/data/assessments.ts:189-190 | a record-order subsequence holding exactly the records of the source's latest period (EOY for iReady, PM3 otherwise) |
| Assessments.CountsAreLabelCounts | src/data/assessments.ts:194-201 | each tally is the number of records with that label, and their total is the number of records with any of the four labels |
| Assessments.CountProficienciesSnoc | src/data/assessments.ts:194-201 | the tallies of one more record are the old tallies updated by that record's label |
| Assessments.TallyProficiencies | src/data/assessments.ts:192-203 | the switch loop returns the tallies of the list |
| Assessments.GetClassProficiency | src/data/assessments.ts:187-204 | the result is the tallies of the latest-period records of the source |
| Assessments.LatestOfStudent | src/data/assessments.ts:130-168 | each student has exactly one latest-period record per source, and it carries a known label |
| Assessments.LatestAllLabelled | src/data/assessments.ts:187-190 | on generated data the latest-period records of a source number one per student and all carry a known label |
| Assessments.ClassProficiencyCoversClass | src/data/assessments.ts:187-204 | on generated data the four counts sum to the number of students |
| Assessments.EntryOf | src/data/assessments.ts:216-219 | the entry keeps the score, and reads Unknown exactly when the label is missing, empty or already Unknown |
| Assessments.GetStudentLatestScores | src/data/assessments.ts:206-224 | a source is a key exactly when it is one of the four and the student has a latest-period record for it; the entry is built from the first such record |
| Grades.SeededIndex | src/data/grades.ts:62-69 | for max > 0 the draw lies in [0, max) |
| Grades.PickGrade | src/data/grades.ts:71-99 | the letter is in the profile's set: {A,B,C} high, {A,B,C,D} average, {B,C,D,F} struggling, {C,D,F} failing |
| Grades.AllowedGradesReached | src/data/grades.ts:75-98 | every letter of a profile's set is produced by some draw in [0, 10), so the sets are exact |
| Grades.GenerateGradeRecords | src/data/grades.ts:102-124 | the nested loops build exactly the generated list: per student, one record per course in course order |
| Grades.GradeRecordsForSnoc | src/data/grades.ts:106-124 | one more id appends exactly that student's six records |
| Grades.GeneratedGradesWellGraded | src/data/grades.ts:109-121 | every generated record has `current == q3`, all four quarters in the profile's set, and a listed student id |
| Grades.GetStudentGrades | src/data/grades.ts:128-130 | a record-order subsequence holding exactly the student's records |
| Grades.StudentGradesOfGenerated | src/data/grades.ts:106-130 | on generated data over distinct ids, a listed student has exactly six records, one per course, anyone else none |
| Grades.GpaPoints | src/data/grades.ts:126 | the points of a letter lie in [0, 4], with an unknown letter worth 0 |
| Grades.GetStudentGPA | src/data/grades.ts:132-137 | the GPA in hundredths lies in [0, 400] and is 0 for a student without records |
| Grades.GpaIsRoundedMean | src/data/grades.ts:135-136 | the GPA is the mean points of the current grades rounded to the nearest hundredth, halves up |
| Grades.QuarterAverage | src/data/grades.ts:145-148 | a quarter's rounded mean lies in [0, 400] |
| Grades.GetStudentQuarterlyGPA | src/data/grades.ts:139-151 | empty exactly when the student has no records, otherwise four entries Q1..Q4 in order, each that quarter's rounded mean in [0, 400] |
| Grades.Q3IsCurrentGpa | src/data/grades.ts:121 | where every record's current grade is its Q3 grade, the Q3 quarterly GPA equals the GPA |
| Grades.GetClassAverageGPA | src/data/grades.ts:153-157 | the class average lies in [0, 400] |
| Attendance.SchoolDays | src/data/attendance.ts:11-13 | every month of the year has between 15 and 22 school days |
| Attendance.SeededValue | src/data/attendance.ts:43-52 | the seeded value lies in [base − variance, base + variance] |
| Attendance.GenerateMonthlyRecord | src/data/attendance.ts:54-85 | the record carries the student and month, `absent` in [0, days − 5], `tardy` in [0, 5], `present + absent` equal to the month's days with `present ≥ 5`, and a rate in [0, 1000] tenths |
| Attendance.MonthlyRateIsRounded | src/data/attendance.ts:82 | the month's rate is `present / days` rounded to a tenth of a percent, halves up |
| Attendance.StudentAttendance | src/data/attendance.ts:94-96 | one record per month, nine in all |
| Attendance.GenerateAttendanceRecords | src/data/attendance.ts:88-97 | the nested loops build exactly the generated list: per student, one record per month Sep..May |
| Attendance.PushMonths | src/data/attendance.ts:94-96 | the month loop appends exactly that student's nine records |
| Attendance.AttendanceRecordsForSnoc | src/data/attendance.ts:92-97 | one more id appends exactly that student's nine records |
| Attendance.GeneratedRecordsValid | src/data/attendance.ts:79-81 | every generated record has non-negative counts and at least one school day |
| Attendance.GetStudentAttendance | src/data/attendance.ts:99-101 | a record-order subsequence holding exactly the student's records |
| Attendance.StudentAttendanceOfGenerated | src/data/attendance.ts:92-101 | on generated data over distinct ids, a listed student has exactly their nine monthly records in month order, anyone else none |
| Attendance.TotalsOfValid | src/data/attendance.ts:106-107 | total present lies between 0 and total days, and total days is at least the number of records |
| Attendance.RateOf | src/data/attendance.ts:108 | the rounded share of days present lies in [0, 1000] tenths |
| Attendance.GetStudentAttendanceRate | src/data/attendance.ts:103-109 | 0 for a student without records, otherwise in [0, 1000] tenths |
| Attendance.YearDaysTotal | src/data/attendance.ts:10-13 | the school year has 170 days |
| Attendance.CalendarDaysFrom | src/data/attendance.ts:107 | over nine monthly records that match the calendar, the days summed from month m are the calendar's days from m |
| Attendance.StudentDaysFrom | src/data/attendance.ts:94-96 | one student's generated records cover exactly the year's school days |
| Attendance.GeneratedRateOverYear | src/data/attendance.ts:103-109 | on generated data the rate's denominator is the sum of school days over the year |
| Attendance.GetMonthlyAttendanceForChart | src/data/attendance.ts:111-116 | one point per record of the student, in order, named by month with that month's rate |
| Attendance.ChartOfGenerated | src/data/attendance.ts:111-116 | on generated data a listed student's chart has nine points running Sep to May |
| Attendance.GetSchoolwideAttendanceRate | src/data/attendance.ts:118-122 | the school-wide rate lies in [0, 1000] tenths |
| Discipline.GetStudentDiscipline | src/data/discipline.ts:123-125 | a record-order subsequence holding exactly the records carrying that id |
| Discipline.FilterCountsIds | src/data/discipline.ts:128 | the number of a student's records is the number of times the id occurs in the log |
| Discipline.GetStudentDisciplineCount | src/data/discipline.ts:127-129 | the count equals the length of the student's record list and the id's occurrences in the log |
| Discipline.GetStudentsWithDisciplineRecords | src/data/discipline.ts:131-134 | no id twice, every listed id has at least one record, and every record's id is listed |
| Discipline.TallyStep | src/data/discipline.ts:138-140 | one turn of the counting loop keeps the dictionary equal to the infraction counts so far, with keys in first-insertion order |
| Discipline.GetDisciplineSummary | src/data/discipline.ts:136-144 | the loop's dictionary, listed in key order and sorted by count, is the summary the specification function describes |
| Discipline.EntriesFacts | src/data/discipline.ts:137-142 | each entry counts one infraction of the log, every infraction has an entry, and no infraction has two |
| Discipline.EntriesSum | src/data/discipline.ts:137-142 | the entry counts add up to the number of records |
| Discipline.SummaryCounts | src/data/discipline.ts:136-144 | each summary entry carries the positive number of records naming its infraction |
| Discipline.SummaryCoversOnce | src/data/discipline.ts:136-144 | every record's infraction appears in the summary exactly once |
| Discipline.SummarySum | src/data/discipline.ts:136-144 | the summary's counts add up to the number of records |
| Discipline.DemoLogAtLeastTwo | src/data/discipline.ts:11-121 | every student in the demo log has at least two records |
| Flags.GetFlagRules | src/data/flags.ts:23-56 | four rules FLAG001..FLAG004 with distinct ids and severities high, high, medium, low |
| Flags.LatestIReady | src/data/flags.ts:86-90 | exactly the student's EOY iReady records |
| Flags.MinScore | src/data/flags.ts:93 | `Math.min` over a non-empty list is one of its scores and no greater than any |
| Flags.FlagsFromShape | src/data/flags.ts:62-112 | a student gets at most four flags, all carrying the student's id and the rule's severity, in strict rule order, so no rule twice |
| Flags.FlagsFromRules | src/data/flags.ts:64-111 | FLAG001 iff rate < 90%, FLAG002 iff GPA < 2.0, FLAG003 iff some latest iReady score < 420, FLAG004 iff at least two discipline records |
| Flags.BenchmarkFigure | src/data/flags.ts:91-97 | a FLAG003 flag reports the lowest EOY iReady score, which is below 420 |
| Flags.StandingOfData | src/data/flags.ts:86-91 | the student's latest iReady list has a score below 420 iff some EOY iReady record of the student does |
| Flags.FlagsForRules | src/data/flags.ts:62-112 | the four rules read off the data: each flag is raised exactly when the source's condition holds on the student's records |
| Flags.ReadStanding | src/data/flags.ts:64-103 | the four reads for one student give the student's standing |
| Flags.PushStudentFlags | src/data/flags.ts:65-111 | the four conditional pushes append exactly the student's flags |
| Flags.PushedFlags | src/data/flags.ts:65-111 | the conditional pushes in rule order concatenate to the rule function's list |
| Flags.AllFlagsFromSnoc | src/data/flags.ts:62-112 | one more student appends exactly that student's flags |
| Flags.ComputeAllFlags | src/data/flags.ts:59-115 | the loop returns every roster student's flags, student by student in roster order |
| Flags.AllFlagsOwners | src/data/flags.ts:62-112 | every flag belongs to one of the students looped over |
| Flags.StudentFlagsIn | src/data/flags.ts:131-133 | a list-order subsequence of the flags carrying that id, empty iff no flag carries it |
| Flags.StudentFlagsOfRosterStudent | src/data/flags.ts:131-133 | over distinct roster ids, a roster student's flags are exactly the flags the rules raise for them |
| Flags.StudentFlagsOfStranger | src/data/flags.ts:131-133 | an id not on the roster has no flags |
| Flags.FlaggedIdsInRosterOrder | src/data/flags.ts:137 | over distinct ids, the distinct flagged ids in first-flag order are the ids of the flagged students in roster order |
| Flags.FlaggedStudentsIn | src/data/flags.ts:135-144 | one entry per distinct flagged id, with that id's roster entry and its non-empty flag list |
| Flags.FlaggedCountIn | src/data/flags.ts:146-149 | the size of the id set is the number of distinct flagged ids |
| Flags.RosterLookup | src/data/flags.ts:140 | over distinct ids, looking a roster student's id up finds that student |
| Flags.FlaggedStudentsOfRoster | src/data/flags.ts:135-149 | the flagged students are the roster students with a flag, in roster order, each found on the roster with their flags, and there are as many as the flagged count |
| Flags.SeverityCountsIn | src/data/flags.ts:151-158 | the high, medium and low counts add up to the number of flags |
| Flags.SeverityPartition | src/data/flags.ts:154-156 | the three severity filters split the list |
| Flags.FlagCache.GetAllFlags | src/data/flags.ts:118-125 | returns every roster student's flags and caches them; a later call keeps the cached list unchanged |
| Flags.FlagCache.GetStudentFlags | src/data/flags.ts:131-133 | the student's flags from the cached list |
| Flags.FlagCache.GetAllFlaggedStudents | src/data/flags.ts:135-144 | the flagged students of the cached list |
| Flags.FlagCache.GetFlaggedStudentCount | src/data/flags.ts:146-149 | the number of distinct flagged ids of the cached list |
| Flags.FlagCache.GetFlagCountBySeverity | src/data/flags.ts:151-158 | the severity counts of the cached list |
| SearchResults.Filtered | src/mockup/MockupSearchResults.tsx:23-35 | a blank or whitespace-only query gives the whole roster; otherwise a roster-order subsequence of exactly the students matching the lowercased, trimmed query, grade by equality |
| SearchResults.AscendingConsistent | src/mockup/MockupSearchResults.tsx:42-55 | each column's comparator (name: last then first name; grade; homeroom; gender) is antisymmetric and transitive |
| SearchResults.ComparatorConsistent | src/mockup/MockupSearchResults.tsx:56 | the negated comparator of the descending direction is consistent too |
| SearchResults.SortedRows | src/mockup/MockupSearchResults.tsx:38-59 | `sorted` is a permutation of `filtered` ordered by the comparator |
| SearchResults.SortedByName | src/mockup/MockupSearchResults.tsx:43-45 | sorted by name ascending, rows are ordered by last name, then first name |
| SearchResults.SortedDescending | src/mockup/MockupSearchResults.tsx:56 | sorted descending, rows are in the reverse of the ascending comparator's order |
| SearchResults.SearchTable.ToggleSort | src/mockup/MockupSearchResults.tsx:61-68 | on the current field the direction flips; on another field that field becomes current, ascending |
| SearchResults.SearchTable.ToggleCheck | src/mockup/MockupSearchResults.tsx:70-77 | the id's membership flips and every other id's stays |
| SearchResults.SearchTable.ToggleAll | src/mockup/MockupSearchResults.tsx:79-85 | clears the set when its size equals the row count, otherwise sets it to exactly the row ids |
| SearchResults.SearchTable.HandleStudentClick | src/mockup/MockupSearchResults.tsx:87-90 | selects exactly that student and navigates to the profile; query, sidebar, tour and view unchanged |
| SearchResults.SearchTable.HandleViewSelected | src/mockup/MockupSearchResults.tsx:92-96 | selects the checked roster students in roster order and navigates to the profile; query, sidebar, tour and view unchanged |
| SearchResults.ViewSelectedExactly | src/mockup/MockupSearchResults.tsx:93 | the selection is a roster-order subsequence holding exactly the checked students |
| SearchResults.ToggleAllChecksHeader | src/mockup/MockupSearchResults.tsx:142 | after checking every row of a non-empty table with distinct ids, the header checkbox shows checked |
| SearchResults.RowIdsCount | src/mockup/MockupSearchResults.tsx:83 | rows with distinct ids give a set of as many ids as rows |
| Header.SuggestionsFacts | src/mockup/MockupHeader.tsx:18-26 | suggestions are a roster-order selection of at most six students, each matching the text by a lowercased name form or a raw student-number substring; empty text suggests nothing; when at most six match, every match is suggested |
| Header.DropdownVisibleIff | src/mockup/MockupHeader.tsx:104 | the dropdown shows exactly when it is open, text has been typed and some roster student matches it |
| Header.SearchBox.constructor | src/mockup/MockupHeader.tsx:11-12 | the box starts with the shared search query and the dropdown closed |
| Header.SearchBox.OnChange | src/mockup/MockupHeader.tsx:82-85 | typing replaces the text and opens the dropdown |
| Header.SearchBox.OnFocus | src/mockup/MockupHeader.tsx:86 | focusing opens the dropdown and keeps the text |
| Header.SearchBox.HandleMouseDown | src/mockup/MockupHeader.tsx:29-37 | a press outside the search area closes the dropdown; one inside leaves it as it was |
| Header.SearchBox.HandleSearch | src/mockup/MockupHeader.tsx:39-43 | publishes the text as the shared query, closes the dropdown and routes to the results page; selection, sidebar, tour and view unchanged |
| Header.SearchBox.HandleKeyDown | src/mockup/MockupHeader.tsx:45-49 | Enter behaves as a search; any other key leaves query, dropdown and route unchanged; selection, sidebar, tour and view unchanged either way |
| Header.SearchBox.HandleSelectSuggestion | src/mockup/MockupHeader.tsx:51-56 | selects exactly that student, closes the dropdown, clears the text and routes to the profile; query, sidebar, tour and view unchanged |
| Header.SearchBox.OpenSidebar | src/mockup/MockupHeader.tsx:62 | opens the sidebar; route, selection, query, tour and view unchanged |
| Tour.TourStepsFacts | src/mockup/MockupTour.tsx:15-60 | eight steps; only the fifth selects a student; exactly the first, fourth and fifth open a page first |
| Tour.Spotlight | src/mockup/MockupTour.tsx:94-101 | the spotlight is the target's box grown by 8 pixels on every side, around the same horizontal centre |
| Tour.PlaceTooltip | src/mockup/MockupTour.tsx:104-131 | below with a 12-pixel gap when more than 180 pixels are free under the spotlight (and then inside the window), else above when more than 180 are free over it, else vertically centred; never closer than 12 to the left edge, 12 from the right when the window is wide enough, and centred on the spotlight when the clamps do not bite |
| Tour.TourOverlay.constructor | src/mockup/MockupTour.tsx:72-75 | the overlay starts at step 0 with no spotlight, no tooltip and no transition |
| Tour.TourOverlay.HandleNext | src/mockup/MockupTour.tsx:169-175 | advances one step, or on the last step closes the tour and keeps the step; the step stays in range; the rest of the shared context and the overlay unchanged |
| Tour.TourOverlay.HandleBack | src/mockup/MockupTour.tsx:177-181 | goes back one step, never below the first; the overlay otherwise unchanged |
| Tour.TourOverlay.HandleSkip | src/mockup/MockupTour.tsx:183-186 | closes the tour and routes to the welcome page; selection, query, sidebar and view unchanged |
| Tour.TourOverlay.BeginStep | src/mockup/MockupTour.tsx:135-147 | marks the transition, selects exactly the first roster student when the step asks and opens the step's page when it names one; otherwise selection and route stay; tour flag, query, sidebar, view, spotlight and tooltip unchanged |
| Tour.TourOverlay.PositionElements | src/mockup/MockupTour.tsx:80-132 | no target: no spotlight and the tooltip centred in the window; a target: the spotlight around it and a tooltip kept inside the horizontal margins |
| Tour.TourOverlay.FinishStep | src/mockup/MockupTour.tsx:150-152 | after the wait, positions the elements and clears the transition flag |
| HeroCard.FlagMatchesSection | src/components/HeroProfileCard.tsx:53-57 | a step carries a header badge exactly when the section it opens has a non-green dot (lines 337, 446, 596), the badge has that dot's colour, and every other section is green |
| HeroCard.SectionTop | src/components/HeroProfileCard.tsx:278 | 225 with nothing open; always one of the six possible tooltip heights |
| HeroCard.SectionTopOfStep | src/components/HeroProfileCard.tsx:62-68 | for step k's section the tooltips sit at 155 + 40k pixels |
| HeroCard.Rotation | src/components/HeroProfileCard.tsx:224 | after whole turns the card keeps its -5 degree tilt modulo 360 |
| HeroCard.Card.constructor | src/components/HeroProfileCard.tsx:216-222 | the card starts in the initial phase on step 0 and student 0, nothing open, no flips, no tooltips |
| HeroCard.Card.StartDemo | src/components/HeroProfileCard.tsx:233-238 | opens the first step's section with its tooltips and starts holding |
| HeroCard.Card.EndHold | src/components/HeroProfileCard.tsx:241-245 | hides the tooltips and starts closing, the open section staying open |
| HeroCard.Card.CloseSection | src/components/HeroProfileCard.tsx:250 | closes the open section, nothing else changes |
| HeroCard.Card.StartFlip | src/components/HeroProfileCard.tsx:252-256 | enters the flip and adds two half turns, so the rotation grows by exactly 360 degrees |
| HeroCard.Card.SwapStudent | src/components/HeroProfileCard.tsx:258-263 | advances the student and the step by one, each wrapping after the fifth, keeping the ref equal to the step |
| HeroCard.Card.EndFlip | src/components/HeroProfileCard.tsx:265-269 | opens the new step's section with its tooltips and returns to holding |
| HeroCard.Card.StartedStaysStarted | src/components/HeroProfileCard.tsx:224-270 | in every reachable started state the tilt is -5 degrees modulo a turn and the step and student indices are in range |
| NoriShowcase.MessageLengths | src/sections/NoriShowcase.tsx:5-9 | the scripted question is 84 characters long and the answer 323 |
| NoriShowcase.BubblesByPhase | src/sections/NoriShowcase.tsx:62-64 | the question shows from typing on, the answer from its typing on, and the thinking dots only while the question shows without the answer |
| NoriShowcase.Typed | src/sections/NoriShowcase.tsx:115 | after n keystrokes a bubble shows the message's first n characters, and the whole message once n is its length |
| NoriShowcase.Showcase.constructor | src/sections/NoriShowcase.tsx:15-18 | idle, both counters at zero, nothing started |
| NoriShowcase.Showcase.OnVisible | src/sections/NoriShowcase.tsx:21-26 | the first time the section is visible the latch is set and the start scheduled; afterwards nothing changes |
| NoriShowcase.Showcase.StartTyping | src/sections/NoriShowcase.tsx:24 | the start timer moves the script to typing the question |
| NoriShowcase.Showcase.TypeUser | src/sections/NoriShowcase.tsx:41-49 | one more question character, or with the whole question shown, on to the pause; the counter never passes the length |
| NoriShowcase.Showcase.StartThinking | src/sections/NoriShowcase.tsx:30-33 | after the question, the thinking phase |
| NoriShowcase.Showcase.StartAnswer | src/sections/NoriShowcase.tsx:34-37 | after thinking, the answer starts typing |
| NoriShowcase.Showcase.TypeNori | src/sections/NoriShowcase.tsx:52-60 | one more answer character, or with the whole answer shown, done |
| NoriShowcase.Showcase.AnswerFollowsWholeQuestion | src/sections/NoriShowcase.tsx:111-115 | whenever the answer bubble shows, the question bubble shows the entire question |
| Chat.MatchStudent | src/mockup/MockupNoriPage.tsx:167-169 | none exactly when no roster student's lowercased first or last name occurs in the message; otherwise the first roster student whose name does |
| Chat.AttendanceTier | src/mockup/MockupNoriPage.tsx:176 | the top wording exactly from 95% up, the bottom one exactly below 90% |
| Chat.GpaTier | src/mockup/MockupNoriPage.tsx:177 | the top wording exactly from GPA 3.0 up, the bottom one exactly below 2.0 |
| Chat.TopFiveFacts | src/mockup/MockupNoriPage.tsx:77-80 | five entries (fewer for a smaller roster), each a roster student with their own figure, highest first, and no student left out has a higher figure than any kept |
| Chat.AscendingBelowFacts | src/mockup/MockupNoriPage.tsx:110-113 | exactly the roster students below the bound, each with their own figure, lowest first |
| Chat.MatchAtUnique | src/mockup/MockupNoriPage.tsx:247 | a span that has the `**text**` shape is exactly the match the pattern finds at its start |
| Chat.FirstMatch | src/mockup/MockupNoriPage.tsx:247 | the leftmost position where a `**text**` match starts, with its length; none when no position has one |
| Chat.Parts | src/mockup/MockupNoriPage.tsx:247 | splitting with a capturing group gives an odd number of parts whose odd-indexed parts are the bold spans |
| Chat.PartsConcat | src/mockup/MockupNoriPage.tsx:247 | the split parts put back together are the message |
| Chat.RenderText | src/mockup/MockupNoriPage.tsx:246-254 | one segment per split part, the matched spans bold; the corrected bold test (see Findings) |
| Chat.RenderTextAsWritten | src/mockup/MockupNoriPage.tsx:246-254 | one segment per split part, with the bold test as written (see Findings) |
| Chat.RenderRoundTrip | src/mockup/MockupNoriPage.tsx:246-254 | rendering with the corrected bold test loses nothing: restoring the stars around the bold segments gives back the message |
| Chat.RenderAsWrittenDropsStars | src/mockup/MockupNoriPage.tsx:249-250 | the bold test as written turns the message `**` into one empty bold segment, so the two stars are not shown |
| Chat.RenderAsWrittenOnMatches | src/mockup/MockupNoriPage.tsx:249 | on every matched span the bold test as written agrees with the corrected one |
| NoriPage.FirstIndexFacts | src/mockup/MockupNoriPage.tsx:57-197 | the index returned passes the test and no earlier one does; none only when nothing passes |
| NoriPage.ClassifyFirstMatch | src/mockup/MockupNoriPage.tsx:60-164 | a keyword reply is chosen exactly when its word group is mentioned and no earlier group is (risk, top, assessment, attendance, overview, growth) |
| NoriPage.ClassifyFallback | src/mockup/MockupNoriPage.tsx:166-208 | a student is looked up exactly when no word group is mentioned and some roster student is named, the first one named; then the greeting; the help text only when nothing else applies |
| NoriPage.OnTrack | src/mockup/MockupNoriPage.tsx:94-97 | no percentage exactly when nothing was counted; otherwise a rounded percentage between 0 and 100 |
| NoriPage.GrowthOf | src/mockup/MockupNoriPage.tsx:147-154 | growth is 0 when the student has no BOY or no EOY reading score |
| NoriPage.LatestOf | src/mockup/MockupNoriPage.tsx:174-175 | the latest record found belongs to that student and that source |
| NoriPage.SchoolRate | src/mockup/MockupNoriPage.tsx:109 | no rate exactly when there are no attendance records; otherwise between 0% and 100% |
| NoriPage.AverageGpa | src/mockup/MockupNoriPage.tsx:130 | no average exactly for an empty roster; otherwise between 0.00 and 4.00 |
| NoriPage.ResponseFacts | src/mockup/MockupNoriPage.tsx:57-209 | the reply answers the question asked: every flagged student, the top five by GPA highest first, exactly the students below 90% lowest first, the roster size, the top five by growth, and a student's tiers following their rate and GPA |
| NoriPage.ChatPage.constructor | src/mockup/MockupNoriPage.tsx:32-41 | the chat opens with only the welcome message, nothing typed, no reply pending |
| NoriPage.ChatPage.HandleSend | src/mockup/MockupNoriPage.tsx:211-223 | a blank message or a pending reply changes nothing; otherwise the trimmed message (the prompt, or the input when no prompt is given) is appended, the input cleared and a reply awaited |
| NoriPage.ChatPage.OnChange | src/mockup/MockupNoriPage.tsx:348 | typing replaces the input and nothing else |
| NoriPage.ChatPage.HandleKeyDown | src/mockup/MockupNoriPage.tsx:238-243 | Enter without Shift acts as a send: a refused send changes nothing, otherwise the trimmed text is appended, the input cleared and a reply awaited for it; any other key changes nothing |
| NoriPage.ChatPage.ReceiveReply | src/mockup/MockupNoriPage.tsx:225-235 | appends exactly one reply, generated for the pending message, and stops thinking |
| NoriBubble.ClassifyMessage | src/mockup/MockupNoriBubble.tsx:46-107 | the risk reply exactly when a risk word is mentioned; otherwise the first named roster student; otherwise the class overview exactly when a class word is mentioned; then the greeting; the help text last |
| NoriBubble.MeanOver | src/mockup/MockupNoriBubble.tsx:83-84 | no mean exactly for an empty roster; otherwise the mean lies within the figures' range |
| NoriBubble.GenerateResponse | src/mockup/MockupNoriBubble.tsx:46-107 | the risk reply lists the first four flagged students (empty exactly when none is flagged); a student's tiers follow their rate and GPA; the overview counts the roster and every flagged student, with averages in range |
| NoriBubble.PageReadsClassWord | src/mockup/MockupNoriPage.tsx:129 | the page answers "alex class" with the class overview, since no earlier word group occurs in it |
| NoriBubble.BubbleReadsName | src/mockup/MockupNoriBubble.tsx:63-81 | the bubble answers the same message about the first roster student, because it tries names before the class words: the two chats disagree |
| NoriBubble.ChatBubble.constructor | src/mockup/MockupNoriBubble.tsx:20-30 | the panel starts closed, with only the welcome message and nothing typed |
| NoriBubble.ChatBubble.ToggleOpen | src/mockup/MockupNoriBubble.tsx:253 | the launcher flips the panel open or closed and keeps the chat, the input and any awaited reply |
| NoriBubble.ChatBubble.Close | src/mockup/MockupNoriBubble.tsx:176 | the close button closes the panel and keeps the chat, the input and any awaited reply |
| NoriBubble.ChatBubble.OnChange | src/mockup/MockupNoriBubble.tsx:225 | typing replaces the input; messages, panel, thinking flag and pending message unchanged |
| NoriBubble.ChatBubble.HandleSend | src/mockup/MockupNoriBubble.tsx:110-123 | blank input or a pending reply changes nothing; otherwise the trimmed input is appended, the input cleared and a reply awaited |
| NoriBubble.ChatBubble.HandleKeyDown | src/mockup/MockupNoriBubble.tsx:139-144 | Enter without Shift acts as a send: a refused send changes nothing, otherwise the trimmed text is appended, the input cleared and a reply awaited for it; any other key changes nothing; the panel stays as it was |
| NoriBubble.ChatBubble.ReceiveReply | src/mockup/MockupNoriBubble.tsx:126-136 | appends exactly one reply, generated for the pending message, and stops thinking |
| StudentReports.FilteredStudents | src/mockup/MockupStudentReports.tsx:57-66 | a blank query lists the whole roster; otherwise a roster-order subsequence holding exactly the students whose lowercased first or last name or student number contains the lowercased, untrimmed query |
| StudentReports.PaddedQueryMissesName | src/mockup/MockupStudentReports.tsx:58-59 | since only the blank test trims, "alex " does not list Alex Anderson |
| StudentReports.ReportBuilder.constructor | src/mockup/MockupStudentReports.tsx:35-40 | no query, no student, the comprehensive type, nothing shown, generating or open |
| StudentReports.ReportBuilder.HandleGenerate | src/mockup/MockupStudentReports.tsx:68-71 | without a student nothing changes; with one the report is hidden while it is generated |
| StudentReports.ReportBuilder.FinishGenerating | src/mockup/MockupStudentReports.tsx:72-75 | the generation timer replaces the spinner by the report |
| StudentReports.ReportBuilder.SelectStudent | src/mockup/MockupStudentReports.tsx:139-144 | picks exactly that student, closes the dropdown, hides the report and clears the query |
| StudentReports.ReportBuilder.SetReportType | src/mockup/MockupStudentReports.tsx:170-173 | sets the type and hides the report, nothing else |
| StudentReports.ReportBuilder.HandleMouseDown | src/mockup/MockupStudentReports.tsx:47-55 | a press outside the picker closes its dropdown; one inside leaves it as it was |
| StudentReports.ReportBuilder.ToggleDropdown | src/mockup/MockupStudentReports.tsx:95 | clicking the picker flips the dropdown and nothing else |
| StudentReports.ReportBuilder.SetQuery | src/mockup/MockupStudentReports.tsx:127 | typing replaces the query and nothing else |
| StudentReports.ShownReportHasStudent | src/mockup/MockupStudentReports.tsx:227-228 | in every reachable state a shown report has a chosen student, so the preview is drawn for that student and type |
| StudentReports.Sections | src/mockup/MockupStudentReports.tsx:271-394 | a section is drawn exactly when the type and the student's flag and discipline counts call for it |
| StudentReports.ComprehensiveCoversAll | src/mockup/MockupStudentReports.tsx:271-394 | the comprehensive report draws every section any narrower report draws, and only it draws discipline |
| StudentReports.GradeColorOf | src/mockup/MockupStudentReports.tsx:466-475 | green exactly for A, red exactly for F, gray exactly for anything other than A to F |
| StudentReports.SourceLabel | src/mockup/MockupStudentReports.tsx:477-485 | an unknown source is shown unchanged |
| StudentReports.SourceLabelsDistinct | src/mockup/MockupStudentReports.tsx:477-485 | the four known sources get four distinct labels |
| StudentReports.ProfBadge | src/mockup/MockupStudentReports.tsx:487-495 | gray exactly for a missing or unknown proficiency |
| StudentReports.RateColor | src/mockup/MockupStudentReports.tsx:294 | green exactly from 95%, yellow exactly from 90% up to 95%, red exactly below 90% |
| ProfileCard.Section.constructor | src/mockup/MockupProfileCard.tsx:22-23 | a section starts open exactly when it is marked open by default |
| ProfileCard.Section.Toggle | src/mockup/MockupProfileCard.tsx:35 | clicking the header flips the section open or closed |
| ProfileCard.FlagSeverityColor | src/mockup/MockupProfileCard.tsx:63-70 | red exactly for high, amber exactly for medium, yellow exactly for low severity |
| ProfileCard.BackToSearch | src/mockup/MockupProfileCard.tsx:133 | the back button routes to the search results; selection, query, sidebar, tour and view unchanged |
| ProfileCard.DisplayedStudent | src/mockup/MockupProfileCard.tsx:87 | the first selected student, or the roster's first when nothing is selected |
| ProfileCard.AttendanceStatusColor | src/mockup/MockupProfileCard.tsx:72-76 | green exactly from 95%, yellow exactly from 90% up to 95%, red exactly below 90% |
| ProfileCard.GradeStatus | src/mockup/MockupProfileCard.tsx:118 | green exactly from GPA 3.0, yellow exactly from 2.0 up to 3.0, red exactly below 2.0 |
| ProfileCard.ColoursMatchTiers | src/mockup/MockupProfileCard.tsx:117-118 | the card's attendance and grade colours agree with the assistant's three tiers for the same rate and GPA |
| ProfileCard.GetLatestAssessment | src/mockup/MockupProfileCard.tsx:111-114 | none exactly when the student has no record of that source; otherwise a record of that source with none of it after |
| ProfileCard.LastIndex | src/mockup/MockupProfileCard.tsx:113 | the index of a record of the source after which none follows; none exactly when no record has that source |
| ProfileCard.LatestIsLastOfFilter | src/mockup/MockupProfileCard.tsx:112-113 | the record found is the last element of the source's filtered records, none when that list is empty |
| ProfileCard.AssessmentStatus | src/mockup/MockupProfileCard.tsx:119-126 | gray exactly without a record, green exactly on or above grade level, yellow exactly when approaching |
| ProfileCard.DisciplineStatus | src/mockup/MockupProfileCard.tsx:127 | green exactly with no record, red exactly from three, yellow for one or two |
| ProfileCard.RecordNoun | src/mockup/MockupProfileCard.tsx:281 | "record" exactly for one, "records" exactly for more |
| ProfileCard.ProfileOf | src/mockup/MockupProfileCard.tsx:87-127 | the card is for the displayed student and counts exactly that student's discipline records |
| ProfileCard.TotalsMatchRate | src/mockup/MockupProfileCard.tsx:106-108 | present plus absent totals every school day counted, and for a student with records the rate is the present share, in tenths |
| GradeAnalytics.TargetStudents | src/mockup/MockupGradeAnalytics.tsx:33-36 | "all" gives the whole roster; a grade level gives a roster-order subsequence holding exactly that level's students |
| GradeAnalytics.StatOf | src/mockup/MockupGradeAnalytics.tsx:40-44 | a student's row is about that student, with GPA and quarterly GPAs between 0.00 and 4.00 |
| GradeAnalytics.StudentStats | src/mockup/MockupGradeAnalytics.tsx:39-47 | one row per target student (a permutation of the unsorted rows), ranked by non-increasing GPA |
| GradeAnalytics.AverageGpa | src/mockup/MockupGradeAnalytics.tsx:50-53 | 0 for no students, otherwise the mean GPA rounded half-up to hundredths (the nearest-integer bracket around sum/n), between 0.00 and 4.00 |
| GradeAnalytics.HonorAndAtRiskDisjoint | src/mockup/MockupGradeAnalytics.tsx:57-58 | no student is both on the honour roll (3.5 and up) and at risk (below 2.0), so the two counts add up to at most the number of students |
| GradeAnalytics.GradeLevelGpa | src/mockup/MockupGradeAnalytics.tsx:63-66 | 0 for a grade level without students, otherwise a mean between 0.00 and 4.00 |
| GradeAnalytics.GpaByGradeLevel | src/mockup/MockupGradeAnalytics.tsx:61-69 | one bar per grade level K to 5 in order, labelled "Grade " plus the level, each in range and 0 for an empty level |
| GradeAnalytics.LetterIndex | src/mockup/MockupGradeAnalytics.tsx:73-77 | a tally exists exactly for the letters A, B, C, D and F, and it is that letter's |
| GradeAnalytics.TallyGrades | src/mockup/MockupGradeAnalytics.tsx:76-78 | after one student's grades, each tally counts its letter among all grades seen so far, other grades being skipped |
| GradeAnalytics.GradeDistribution | src/mockup/MockupGradeAnalytics.tsx:72-81 | for each letter A to F in order, the number of current grades of the listed students that carry it |
| GradeAnalytics.QuarterValue | src/mockup/MockupGradeAnalytics.tsx:88-89 | 0 when the student has no entry for the quarter, otherwise the GPA of the first entry for it |
| GradeAnalytics.QuarterMean | src/mockup/MockupGradeAnalytics.tsx:87-92 | 0 for no students, otherwise a mean between 0.00 and 4.00 |
| GradeAnalytics.QuarterlyTrend | src/mockup/MockupGradeAnalytics.tsx:84-94 | four points, Q1 to Q4 in order, each in range, all 0 with no students |
| GradeAnalytics.TrendOf | src/mockup/MockupGradeAnalytics.tsx:282-286 | the arrow points up exactly when Q3 beats Q1 and down exactly when it trails |
| GradeAnalytics.TrendOfRecords | src/mockup/MockupGradeAnalytics.tsx:282-286 | for a student with grade records the arrow compares that student's third- and first-quarter averages |
| GradeAnalytics.RankColorOf | src/mockup/MockupGradeAnalytics.tsx:304 | green exactly from 3.5, lime exactly from 2.5 up to 3.5, yellow exactly from 2.0 up to 2.5, red exactly below 2.0 |
| GradeAnalytics.CollectSubjectGrades | src/mockup/MockupGradeAnalytics.tsx:100-105 | collects, in ranking order, the current grade of each listed student's first record in the subject, skipping students without one |
| GradeAnalytics.SubjectRowOf | src/mockup/MockupGradeAnalytics.tsx:106-110 | the row counts the subject's grades and its average grade points lie between 0.00 and 4.00, 0 with no grades |
| GradeAnalytics.SubjectBreakdown | src/mockup/MockupGradeAnalytics.tsx:97-112 | one row per subject (a permutation of the subject rows), ranked by non-increasing average |
| ExamAnalytics.Periods | src/mockup/MockupExamAnalytics.tsx:12-16 | three periods: BOY, MOY and EOY for an iReady source, PM1, PM2 and PM3 otherwise |
| ExamAnalytics.LatestIsLastPeriod | src/mockup/MockupExamAnalytics.tsx:92-93 | the latest period (EOY or PM3) is the last of the source's periods and differs from the first |
| ExamAnalytics.PeriodRecords | src/mockup/MockupExamAnalytics.tsx:40-42 | a record-order subsequence holding exactly the records of that source and period that belong to a target student |
| ExamAnalytics.Proficiency | src/mockup/MockupExamAnalytics.tsx:38-53 | the four tallies of the target students' latest-period records by label |
| ExamAnalytics.TallyTotal | src/mockup/MockupExamAnalytics.tsx:45-50 | one turn of the switch adds one to the total exactly for a record with one of the four labels |
| ExamAnalytics.AssessedCount | src/mockup/MockupExamAnalytics.tsx:110 | the number assessed is at most the number of latest records, and equal to it when all carry a label |
| ExamAnalytics.OnTrackPercent | src/mockup/MockupExamAnalytics.tsx:172 | 0 with no one assessed; otherwise a rounded percentage in 0..100, 100 when no one is below or approaching, 0 when no one meets or exceeds |
| ExamAnalytics.AverageScore | src/mockup/MockupExamAnalytics.tsx:61 | 0 for no records, otherwise `Math.round(sum / n)`: the integer whose bracket of half-widths contains the mean score |
| ExamAnalytics.AverageScoreWithin | src/mockup/MockupExamAnalytics.tsx:61 | the average of scores within a range lies in that range |
| ExamAnalytics.AvgScoresByPeriod | src/mockup/MockupExamAnalytics.tsx:56-65 | one point per period of the source, in order, with the average score of the target students' records for that period and the benchmark 460 for iReady, 380 otherwise |
| ExamAnalytics.ScoresByGradeLevel | src/mockup/MockupExamAnalytics.tsx:68-78 | one bar per grade level K to 5, the average latest-period score of that level's students across the school, 0 for an empty level |
| ExamAnalytics.NoTargetsNoRecords | src/mockup/MockupExamAnalytics.tsx:41 | with no target students no record is selected |
| ExamAnalytics.Growth | src/mockup/MockupExamAnalytics.tsx:94-108 | the latest period's average minus the first period's, 0 when neither has records |
| ExamAnalytics.ScoreRows | src/mockup/MockupExamAnalytics.tsx:83-88 | at most one row per target, each pairing a target student with one of their own latest-period records of the source |
| ExamAnalytics.ScoreRowsCover | src/mockup/MockupExamAnalytics.tsx:83-88 | a target student is listed exactly when they have a latest-period record of the source |
| ExamAnalytics.StudentScores | src/mockup/MockupExamAnalytics.tsx:81-89 | the listed rows in non-increasing order of latest score, as a permutation |
| Analytics.Homerooms | src/mockup/MockupAnalytics.tsx:23-26 | each roster homeroom exactly once, and nothing else |
| Analytics.HomeroomsSorted | src/mockup/MockupAnalytics.tsx:25 | the homerooms are listed in ascending code-unit order |
| Analytics.DefaultHomeroom | src/mockup/MockupAnalytics.tsx:28 | none exactly for an empty roster; otherwise a listed homeroom no greater than any other |
| Analytics.HomeroomStudents | src/mockup/MockupAnalytics.tsx:31-34 | a roster-order subsequence holding exactly the students of the selected homeroom |
| Analytics.StatOf | src/mockup/MockupAnalytics.tsx:38-43 | a student's rate lies within 0%..100% and their GPA within 0.00..4.00 |
| Analytics.StudentStats | src/mockup/MockupAnalytics.tsx:37-46 | one row per homeroom student, in the same order, each that student's figures |
| Analytics.AverageAttendance | src/mockup/MockupAnalytics.tsx:49-53 | 0 for an empty homeroom, otherwise the mean rate rounded half-up to tenths (the nearest-integer bracket around sum/n), within 0%..100% |
| Analytics.AverageGpa | src/mockup/MockupAnalytics.tsx:55-59 | 0 for an empty homeroom, otherwise the mean GPA rounded half-up to hundredths (the nearest-integer bracket around sum/n), within 0.00..4.00 |
| Analytics.AverageOfEqual | src/mockup/MockupAnalytics.tsx:49-53 | a homeroom whose students all have the same rate averages to exactly that rate |
| Analytics.FlaggedCount | src/mockup/MockupAnalytics.tsx:61-64 | the number of students with at least one flag; so at most the number of students, and 0 exactly when no student has a flag |
| Analytics.BandOf | src/mockup/MockupAnalytics.tsx:73-78 | A exactly from 3.5, B from 2.5 up to 3.5, C from 1.5 up to 2.5, D from 0.5 up to 1.5, F exactly below 0.5 |
| Analytics.BandsPartition | src/mockup/MockupAnalytics.tsx:70-81 | every student falls in exactly one band, so the five counts add up to the number of students |
| Analytics.GradeDistribution | src/mockup/MockupAnalytics.tsx:70-81 | the bands A to F in order, each with the number of students whose GPA falls in it |
| Analytics.HandleStudentClick | src/mockup/MockupAnalytics.tsx:83-86 | selects exactly that student and routes to the profile; query, sidebar, tour and view unchanged |
| Analytics.ProficiencyColor | src/mockup/MockupAnalytics.tsx:100-108 | one colour per known label, and gray exactly for a label that is none of the four |
| Analytics.ScoreColour | src/mockup/MockupAnalytics.tsx:194-199 | the muted gray exactly when the student has no latest score for the source, otherwise the colour of its label |
| Analytics.UnlabelledScoreIsGray | src/mockup/MockupAnalytics.tsx:194-199 | a latest score from a record with no label, or an empty one, shows gray; one with a known label never does |
| Observation.CompletedOf | src/mockup/MockupObservation.tsx:134 | exactly the listed observations whose status is completed |
| Observation.ScheduledOf | src/mockup/MockupObservation.tsx:135 | exactly the listed observations whose status is scheduled |
| Observation.CompletedScheduledDisjoint | src/mockup/MockupObservation.tsx:134-135 | no observation is counted both completed and scheduled, so the two counts add up to at most the total |
| Observation.AverageRating | src/mockup/MockupObservation.tsx:136-138 | 0 when nothing is completed, otherwise the mean overall rating (a missing one counting 0) rounded half-up to one decimal, as the nearest-integer bracket around 10·sum/n |
| Observation.AverageRatingWithin | src/mockup/MockupObservation.tsx:136-138 | with ratings on the 1 to 5 scale, the average shown lies between 0.0 and 5.0 |
| Observation.DemoFigures | src/mockup/MockupObservation.tsx:40-115 | the demo list shows three completed, two scheduled and an average rating of 4.0 |
| Observation.Stars | src/mockup/MockupObservation.tsx:230-233 | five stars, star i filled exactly when i is below the rating |
| Observation.StarsFilled | src/mockup/MockupObservation.tsx:231-233 | a rating r in 0..5 fills exactly r stars, clamped to 0 and 5 outside that range |
| Observation.RatingLabel | src/mockup/MockupObservation.tsx:117-123 | a label exactly for ratings 1 to 5 |
| Observation.Expanded | src/mockup/MockupObservation.tsx:140 | nothing without a selection; otherwise a listed observation with the selected id, found whenever one exists |
| Observation.DetailsIff | src/mockup/MockupObservation.tsx:247 | a listed observation's details open exactly when it is selected and completed, and then the expanded record is that one |
| Observation.NextSelection | src/mockup/MockupObservation.tsx:198 | clicking selects the observation unless it was already selected, in which case the selection clears |
| Observation.ClickTwice | src/mockup/MockupObservation.tsx:198 | clicking the same observation twice restores a state where it or nothing was selected |
| Observation.ObservationPage.constructor | src/mockup/MockupObservation.tsx:127-128 | the page opens on the list with nothing selected |
| Observation.ObservationPage.ToggleView | src/mockup/MockupObservation.tsx:152 | the header button always flips between list and form, keeping the selection |
| Observation.ObservationPage.Cancel | src/mockup/MockupObservation.tsx:190 | the form's cancel returns to the list, keeping the selection |
| Observation.ObservationPage.Click | src/mockup/MockupObservation.tsx:198 | the new selection is the click's toggle of the old one; the view is unchanged |
| Sidebar.IsActiveIff | src/mockup/MockupSidebar.tsx:42-45 | an item is highlighted exactly when its path is a prefix of the route that ends there or is followed by '/'; an item without a path never is |
| Sidebar.ActivePathsNested | src/mockup/MockupSidebar.tsx:42-45 | two paths highlighted on the same route are prefixes of one another |
| Sidebar.MenuPathsDiffer | src/mockup/MockupSidebar.tsx:31-40 | every menu entry has a path under "/try/", and no two share the next character |
| Sidebar.AtMostOneActive | src/mockup/MockupSidebar.tsx:84 | whatever the route, no two menu items are highlighted at once |
| Sidebar.HandleItemClick | src/mockup/MockupSidebar.tsx:47-52 | an item with a path navigates there and closes the sidebar; one without a path leaves route and sidebar as they were; selection, query, tour and view unchanged |
| Sidebar.LogoClick | src/mockup/MockupSidebar.tsx:65 | the logo returns to the welcome page and closes the sidebar; selection, query, tour and view unchanged |
| Sidebar.CloseClick | src/mockup/MockupSidebar.tsx:73-78 | the close button closes the sidebar and stays on the same route; selection, query, tour and view unchanged |
| Sidebar.HoverState.constructor | src/mockup/MockupSidebar.tsx:29 | nothing is hovered at first |
| Sidebar.HoverState.MouseEnter | src/mockup/MockupSidebar.tsx:91 | the entered item becomes the hovered one |
| Sidebar.HoverState.MouseLeave | src/mockup/MockupSidebar.tsx:92 | leaving an item clears the hover |
| Sidebar.MenuHasNoTooltips | src/mockup/MockupSidebar.tsx:119 | no item of this menu ever shows a tooltip, because every one has a path |
| StudentAvatar.FirstChar | src/components/StudentAvatar.tsx:17-18 | the first character of a name, or nothing exactly when the name is missing or empty |
| StudentAvatar.Initials | src/components/StudentAvatar.tsx:16-20 | at most two characters, none lower-case: the upper-cased first letter of each name present |
| StudentAvatar.GradientColors | src/components/StudentAvatar.tsx:22-31 | pink exactly when the lower-cased gender holds an 'f', blue exactly when it holds an 'm' but no 'f', gray otherwise |
| StudentAvatar.GenderColors | src/components/StudentAvatar.tsx:22-31 | "female" is pink although it holds an 'm'; "male" is blue; "other", "undisclosed" and no gender are gray |
| Theme.InitialTheme | src/hooks/useTheme.ts:4-10 | light exactly when "light" was stored; a stored "dark", anything else or nothing gives dark |
| Theme.StoredRoundTrip | src/hooks/useTheme.ts:4-10 | reading back the value stored for a theme gives that theme |
| Theme.Toggle | src/hooks/useTheme.ts:22-24 | toggling always changes the theme |
| Theme.ToggleTwice | src/hooks/useTheme.ts:22-24 | toggling twice restores the theme |
| Theme.ApplyTheme | src/hooks/useTheme.ts:12-20 | the root carries the dark class exactly for the dark theme, and what is stored reads back as the applied theme |
| ViewportScale.GetScale | src/hooks/useViewportScale.ts:6-12 | scaled exactly for widths from 768 up to 1100, where the zoom shrinks the 1100-pixel design to the window and lies in [768/1100, 1); otherwise zoom 1 |
| ViewportScale.ZoomMonotone | src/hooks/useViewportScale.ts:6-12 | within the scaled range, a wider window is never zoomed out further |
| Session.AppContext.constructor | src/mockup/MockupApp.tsx:33-37 | the demo starts with no query, nothing selected, the sidebar closed, the tour showing, on the welcome view |
| Sorting.SortWith | src/mockup/MockupSearchResults.tsx:38-39 | the sorted copy is a permutation of the input |
| Sorting.SortWithSorted | src/mockup/MockupSearchResults.tsx:38-39 | with a consistent comparator no element is placed after one the comparator puts behind it |
| Sorting.InsertStable | src/mockup/MockupSearchResults.tsx:38-39 | inserting x behind everything it ties with appends x to its class of ties and leaves every other class as it was |
| Sorting.SortWithStable | src/mockup/MockupSearchResults.tsx:38-39 | with a consistent comparator the sort is stable: each class of tied elements comes out in input order |
| Sorting.SortByKeyDesc | src/data/discipline.ts:143 | a permutation of the input with keys in non-increasing order, elements with equal keys in their input order (the sort is stable) |
| Sorting.SortByKeyAsc | src/mockup/MockupNoriPage.tsx:113 | a permutation of the input with keys in non-decreasing order, elements with equal keys in their input order (the sort is stable) |
| Sorting.CompareStringsAntisymmetric | src/mockup/MockupSearchResults.tsx:49 | swapping the strings negates the comparison, and only equal strings compare equal |
| Sorting.CompareStringsTransitive | src/mockup/MockupSearchResults.tsx:49 | the string comparison's "not after" is transitive |
| Sorting.CompareByConsistent | src/mockup/MockupSearchResults.tsx:49 | comparing by a string key is a consistent comparator |
| Sorting.ThenByConsistent | src/mockup/MockupSearchResults.tsx:43 | breaking ties of a last-name comparison by another consistent comparator stays consistent |
| Sorting.ReversedConsistent | src/mockup/MockupSearchResults.tsx:56 | reversing a consistent comparator for descending order keeps it consistent |


## Left out

- Rendering: JSX, Tailwind class strings, the recharts wrappers, the SVG path geometry of the hero card's trend graph, and the icons. Colours are modelled as an enumeration of the classes the code chooses between.
- Timers and animation: delays, cleanup and CSS transitions. Each `setTimeout`/`setInterval` callback is a method that is enabled in the phase that scheduled it. The animated counters' easing (`Math.pow`) is floating point and is not part of this model.
- Randomness and clocks: `Date.now`/`Math.random` message ids, the random reply delay and `toLocaleDateString` dates. Messages carry no id or time, and the report date is not modelled.
- Browser I/O: element rectangles and window sizes are parameters. The `localStorage` read is a parameter and the write is the returned document state. Event listeners, `scrollIntoView` and the click-outside listener are reduced to the handlers they call, with the press position given as a flag.
- `navigate` is the assignment of the context's `route` field. The router's table in src/mockup/MockupApp.tsx is not part of this model.
- Floating point: `toFixed` text and the double-precision behaviour of `Math.round` are not modelled. Means are rounded half up on exact rationals. A JavaScript `NaN` (the mean of nothing) is `None`.
- `localeCompare` is a total lexicographic order on character codes: no locale collation and no numeric option. `toLowerCase`/`toUpperCase` map ASCII letters only.
- Chat reply prose: a reply is the intent and the student lists and figures its text is built from, not the template wording.
- Observation notes (strengths, growth areas, next steps, observer) and the new-observation form's fields are display only and not modelled. The form's Cancel button is modelled.
- The class analytics page's proficiency chart (`readingProficiency`) is `Assessments.GetClassProficiency` for iReady reading and is not restated.
- The class analytics page's `attendanceColor` and `gpaColor` (src/mockup/MockupAnalytics.tsx:88-98) have the same thresholds and colours as the profile card's. They are `ProfileCard.AttendanceStatusColor` and `ProfileCard.GradeStatus` and are not defined a second time.
- The grade analytics page's row click (src/mockup/MockupGradeAnalytics.tsx:114-117) is the same handler as `Analytics.HandleStudentClick`. The selection setters of the grade and exam pages are plain assignments.
- Plumbing with no logic: src/mockup/MockupApp.tsx, MockupLayout.tsx, MockupWelcome.tsx, src/App.tsx, the marketing sections and MockupFlagging.tsx. MockupFlagging.tsx only renders the flag counts of src/data/flags.ts, which are modelled. `Session.AppContext` holds only the provider's state.
- Attendance.RateOf: requires every record to have at least one school day. With zero days the source divides by zero and gives `NaN`.
- Attendance.GetStudentAttendanceRate: has the same requirement as `Attendance.RateOf`. Generated data always meets it (`Attendance.GeneratedRecordsValid`).
- Attendance.GetSchoolwideAttendanceRate: requires a non-empty list of valid records. The source gives `NaN` for no records.
- Grades.GetClassAverageGPA: requires a non-empty id list. The source gives `NaN` for none.
- Discipline.GetStudentsWithDisciplineRecords: states no duplicates and exact membership, but not the first-occurrence order of the ids.
- Flags.FlaggedStudentsIn: `getStudentById(id)!` becomes an `Option`. An id without a roster entry keeps its entry, with `None` where the source would hold `undefined`.
- HeroCard.Card.CloseSection: the model does not enforce that the 300 ms timer (which hides the tooltip) fires before the 900 ms one (which clears the section). Each is a separate enabled transition.
- HeroCard.Card.StartFlip: like `HeroCard.Card.CloseSection`, the order of the closing timers is not enforced.

## Findings

| source | as written | input that shows it | evidently intended | confidence | as-written member | corrected member |
|---|---|---|---|---|---|---|
| src/mockup/MockupNoriPage.tsx:249-250 | a split part is shown bold when it starts and ends with `**`, which a part with no match can also do (the same test is at src/mockup/MockupNoriBubble.tsx:147) | the message `**`: no `**text**` match, one part `**`, shown as an empty bold span, so both stars vanish | only the matched `**text**` spans are bold, and everything else is shown as typed | not executed | Chat.RenderTextAsWritten, Chat.RenderAsWrittenDropsStars | Chat.RenderText, Chat.RenderRoundTrip |
