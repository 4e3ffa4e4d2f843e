// The report builder (src/mockup/MockupStudentReports.tsx): the student
// picker's filter, the generate/preview state, which sections a report
// type shows, and the colour and label maps of the preview.

module StudentReports {
  import opened Common
  import Students
  import ProfileCard

  datatype ReportType = Comprehensive | Progress | AttendanceReport | AssessmentReport

  // ---------------------------------------------------------------------
  // The student picker

  /** A student matches a query when their lowercased first or last name,
      or their student number, contains it. */
  predicate Matches(s: Students.Student, q: string)
  {
    Contains(Lower(s.firstName), q) || Contains(Lower(s.lastName), q) || Contains(s.studentNumber, q)
  }

  function MatchTest(q: string): Students.Student -> bool
  {
    (s: Students.Student) => Matches(s, q)
  }

  /** `filteredStudents`: the whole roster for a blank query; otherwise the
      students matching the lowercased query, which is not trimmed, in
      roster order. */
  function FilteredStudents(roster: seq<Students.Student>, query: string): (r: seq<Students.Student>)
    ensures IsBlank(query) ==> r == roster
    ensures !IsBlank(query) ==>
              IsSubseq(r, roster)
              && (forall i :: 0 <= i < |r| ==> Matches(r[i], Lower(query)))
              && (forall i :: 0 <= i < |roster| && Matches(roster[i], Lower(query)) ==> roster[i] in r)
  {
    if IsBlank(query) then roster
    else
      var q := Lower(query);
      FilterIsSubseq(roster, MatchTest(q));
      FilterMembers(roster, MatchTest(q));
      Filter(roster, MatchTest(q))
  }

  /** Because the query is not trimmed, a trailing space finds nobody by
      name: "alex " does not list Alex Anderson. */
  lemma PaddedQueryMissesName()
    ensures Students.S01 !in FilteredStudents([Students.S01], "alex ")
  {
    PaddedQueryNotBlank();
    PaddedQueryNoMatch();
    FilterMembers([Students.S01], MatchTest(Lower("alex ")));
  }

  lemma PaddedQueryNotBlank()
    ensures !IsBlank("alex ")
  {
    assert "alex "[0] == 'a';
    NotBlank("alex ", 0);
  }

  lemma PaddedQueryNoMatch()
    ensures !Matches(Students.S01, Lower("alex "))
  {
    var q := Lower("alex ");
    assert q[4] == ' ' && |q| == 5;
    assert |Lower(Students.S01.firstName)| == 4;
    MissingChar(Lower(Students.S01.lastName), q, 4);
    MissingChar(Students.S01.studentNumber, q, 4);
  }

  // ---------------------------------------------------------------------
  // The builder's state

  class ReportBuilder {
    var searchQuery: string
    var selectedStudent: Option<Students.Student>
    var reportType: ReportType
    var showReport: bool
    var generating: bool
    var showDropdown: bool

    /** A report is shown or under way only for a chosen student, and never
        both at once. */
    ghost predicate Valid()
      reads this
    {
      (generating ==> !showReport) && (showReport || generating ==> selectedStudent.Some?)
    }

    constructor()
      ensures Valid()
      ensures searchQuery == "" && selectedStudent == None && reportType == Comprehensive
      ensures !showReport && !generating && !showDropdown
    {
      searchQuery := "";
      selectedStudent := None;
      reportType := Comprehensive;
      showReport := false;
      generating := false;
      showDropdown := false;
    }

    /** The Generate button is disabled without a student or while
        generating. */
    predicate GenerateEnabled()
      reads this
    {
      selectedStudent.Some? && !generating
    }

    /** `handleGenerate`: nothing without a student; otherwise the report is
        hidden while it is generated. */
    method HandleGenerate()
      requires Valid()
      modifies this
      ensures Valid()
      ensures old(selectedStudent).None? ==>
                generating == old(generating) && showReport == old(showReport)
      ensures old(selectedStudent).Some? ==> generating && !showReport
      ensures selectedStudent == old(selectedStudent) && reportType == old(reportType)
      ensures searchQuery == old(searchQuery) && showDropdown == old(showDropdown)
    {
      if selectedStudent.None? {
        return;
      }
      generating := true;
      showReport := false;
    }

    /** The generation timer: the report replaces the spinner. */
    method FinishGenerating()
      requires Valid() && generating
      modifies this
      ensures Valid() && !generating && showReport
      ensures selectedStudent == old(selectedStudent) && reportType == old(reportType)
      ensures searchQuery == old(searchQuery) && showDropdown == old(showDropdown)
    {
      generating := false;
      showReport := true;
    }

    /** Picking a student from the dropdown clears the query, closes the
        dropdown and hides any report. */
    method SelectStudent(s: Students.Student)
      requires Valid()
      modifies this
      ensures Valid()
      ensures selectedStudent == Some(s) && searchQuery == "" && !showDropdown && !showReport
      ensures generating == old(generating) && reportType == old(reportType)
    {
      selectedStudent := Some(s);
      showDropdown := false;
      showReport := false;
      searchQuery := "";
    }

    /** Choosing another report type hides the report. */
    method SetReportType(rt: ReportType)
      requires Valid()
      modifies this
      ensures Valid()
      ensures reportType == rt && !showReport
      ensures selectedStudent == old(selectedStudent) && generating == old(generating)
      ensures searchQuery == old(searchQuery) && showDropdown == old(showDropdown)
    {
      reportType := rt;
      showReport := false;
    }

    /** A mouse press outside the picker closes its dropdown; one inside
        changes nothing. */
    method HandleMouseDown(insidePicker: bool)
      requires Valid()
      modifies this
      ensures Valid() && showDropdown == (old(showDropdown) && insidePicker)
      ensures selectedStudent == old(selectedStudent) && showReport == old(showReport)
      ensures generating == old(generating) && searchQuery == old(searchQuery) && reportType == old(reportType)
    {
      if !insidePicker {
        showDropdown := false;
      }
    }

    /** Clicking the picker opens or closes its dropdown. */
    method ToggleDropdown()
      requires Valid()
      modifies this
      ensures Valid() && showDropdown == !old(showDropdown)
      ensures selectedStudent == old(selectedStudent) && showReport == old(showReport)
      ensures generating == old(generating) && searchQuery == old(searchQuery) && reportType == old(reportType)
    {
      showDropdown := !showDropdown;
    }

    /** Typing in the picker replaces the query. */
    method SetQuery(q: string)
      requires Valid()
      modifies this
      ensures Valid() && searchQuery == q
      ensures selectedStudent == old(selectedStudent) && showReport == old(showReport)
      ensures generating == old(generating) && showDropdown == old(showDropdown) && reportType == old(reportType)
    {
      searchQuery := q;
    }

    /** The preview is drawn for the chosen student once generated. */
    function Preview(): Option<(Students.Student, ReportType)>
      reads this
    {
      if showReport && selectedStudent.Some? then Some((selectedStudent.value, reportType)) else None
    }
  }

  /** Whatever the builder has been through, a shown report has a student. */
  lemma ShownReportHasStudent(b: ReportBuilder)
    requires b.Valid() && b.showReport
    ensures b.Preview() == Some((b.selectedStudent.value, b.reportType))
  {
  }

  // ---------------------------------------------------------------------
  // The preview's sections

  datatype Section = FlagsSection | AttendanceSection | GradesSection | AssessmentsSection | DisciplineSection

  /** Whether a section is drawn, given the report type and how many flags
      and discipline records the student has. */
  predicate Shows(rt: ReportType, section: Section, flagCount: nat, disciplineCount: nat)
  {
    match section
    case FlagsSection => flagCount > 0 && (rt == Comprehensive || rt == Progress)
    case AttendanceSection => rt == Comprehensive || rt == AttendanceReport
    case GradesSection => rt == Comprehensive || rt == Progress
    case AssessmentsSection => rt == Comprehensive || rt == AssessmentReport
    case DisciplineSection => rt == Comprehensive && disciplineCount > 0
  }

  /** The sections drawn, in page order. */
  function Sections(rt: ReportType, flagCount: nat, disciplineCount: nat): (r: seq<Section>)
    ensures forall x :: x in r <==> Shows(rt, x, flagCount, disciplineCount)
  {
    (if Shows(rt, FlagsSection, flagCount, disciplineCount) then [FlagsSection] else [])
    + (if Shows(rt, AttendanceSection, flagCount, disciplineCount) then [AttendanceSection] else [])
    + (if Shows(rt, GradesSection, flagCount, disciplineCount) then [GradesSection] else [])
    + (if Shows(rt, AssessmentsSection, flagCount, disciplineCount) then [AssessmentsSection] else [])
    + (if Shows(rt, DisciplineSection, flagCount, disciplineCount) then [DisciplineSection] else [])
  }

  /** The comprehensive report is the union of the others: every section a
      narrower report draws, it draws too, and only it draws discipline. */
  lemma ComprehensiveCoversAll(rt: ReportType, section: Section, flagCount: nat, disciplineCount: nat)
    ensures Shows(rt, section, flagCount, disciplineCount) ==> Shows(Comprehensive, section, flagCount, disciplineCount)
    ensures section == DisciplineSection && Shows(rt, section, flagCount, disciplineCount) ==> rt == Comprehensive
  {
  }

  // ---------------------------------------------------------------------
  // Colour and label maps

  datatype GradeColor = GreenText | LimeText | YellowText | OrangeText | RedText | GrayText

  /** `gradeColor`: a colour per letter A to F, gray for anything else. */
  function GradeColorOf(grade: string): (c: GradeColor)
    ensures c == GrayText <==> grade !in {"A", "B", "C", "D", "F"}
    ensures c == GreenText <==> grade == "A"
    ensures c == RedText <==> grade == "F"
  {
    if grade == "A" then GreenText
    else if grade == "B" then LimeText
    else if grade == "C" then YellowText
    else if grade == "D" then OrangeText
    else if grade == "F" then RedText
    else GrayText
  }

  /** `sourceLabel`: the display name of a known source; any other source
      is shown unchanged. */
  function SourceLabel(source: string): (r: string)
    ensures source !in {"iready-reading", "iready-math", "fast-ela", "fast-math"} ==> r == source
  {
    if source == "iready-reading" then "iReady Reading"
    else if source == "iready-math" then "iReady Math"
    else if source == "fast-ela" then "FAST ELA"
    else if source == "fast-math" then "FAST Math"
    else source
  }

  /** The four known sources get four distinct labels. */
  lemma SourceLabelsDistinct()
    ensures var known := ["iready-reading", "iready-math", "fast-ela", "fast-math"];
            forall i, j :: 0 <= i < j < |known| ==> SourceLabel(known[i]) != SourceLabel(known[j])
  {
  }

  datatype Badge = GreenBadge | EmeraldBadge | YellowBadge | RedBadge | GrayBadge

  /** `profBadge(a.proficiency || '')`: a badge per proficiency label,
      gray for a missing or unknown one. */
  function ProfBadge(proficiency: Option<string>): (b: Badge)
    ensures b == GrayBadge <==>
              proficiency.None? || proficiency.value !in {"Above Grade Level", "On Grade Level", "Approaching", "Below"}
  {
    var p := if proficiency.Some? then proficiency.value else "";
    if p == "Above Grade Level" then GreenBadge
    else if p == "On Grade Level" then EmeraldBadge
    else if p == "Approaching" then YellowBadge
    else if p == "Below" then RedBadge
    else GrayBadge
  }

  /** The rate tile's colour uses the profile card's thresholds. */
  function RateColor(rate: int): (c: ProfileCard.StatusColor)
    ensures c == ProfileCard.Green <==> rate >= 950
    ensures c == ProfileCard.Yellow <==> 900 <= rate < 950
    ensures c == ProfileCard.Red <==> rate < 900
  {
    ProfileCard.AttendanceStatusColor(rate)
  }
}
