// The assistant's full chat page (src/mockup/MockupNoriPage.tsx): which
// question the message asks, the data the reply is built from, and the
// message list with its send guard. The reply's wording is not modelled;
// a reply is the data it shows.

module NoriPage {
  import opened Common
  import Students
  import Grades
  import Attendance
  import Assessments
  import Flags
  import Chat
  import ProfileCard

  // ---------------------------------------------------------------------
  // Intent

  /** What a message asks, in the order the page tries them. */
  datatype Intent =
    | AtRisk | TopPerformers | AssessmentSnapshot | AttendanceConcerns | Overview | Growth
    | StudentLookup(student: Students.Student) | Greeting | Help

  const RiskWords: seq<string> := ["risk", "help", "flag", "concern", "support", "struggling"]
  const TopWords: seq<string> := ["top", "best", "honor", "excell"]
  const AssessmentWords: seq<string> := ["assessment", "iready", "fast", "exam", "test"]
  const AttendanceWords: seq<string> := ["attendance", "absent", "tardy"]
  const OverviewWords: seq<string> := ["overview", "summary", "class", "school", "performance"]
  const GrowthWords: seq<string> := ["growth", "improve", "progress"]

  /** The keyword groups in the order they are tried. */
  const KeywordGroups: seq<seq<string>> :=
    [RiskWords, TopWords, AssessmentWords, AttendanceWords, OverviewWords, GrowthWords]

  /** The intents of the keyword groups, in the same order. */
  const KeywordIntents: seq<Intent> :=
    [AtRisk, TopPerformers, AssessmentSnapshot, AttendanceConcerns, Overview, Growth]

  /** The index of the first element that passes the test. */
  function FirstIndex<T>(s: seq<T>, p: T -> bool): (r: Option<nat>)
    ensures r.Some? ==> r.value < |s|
  {
    if s == [] then None
    else if p(s[0]) then Some(0)
    else match FirstIndex(s[1..], p)
      case Some(i) => Some(i + 1)
      case None => None
  }

  /** The index returned passes the test and no earlier one does; none is
      returned only when no element passes. */
  lemma {:induction false} FirstIndexFacts<T>(s: seq<T>, p: T -> bool)
    ensures forall i :: 0 <= i < |s| ==>
              (FirstIndex(s, p) == Some(i) <==> p(s[i]) && forall j :: 0 <= j < i ==> !p(s[j]))
    ensures FirstIndex(s, p).None? <==> forall j :: 0 <= j < |s| ==> !p(s[j])
  {
    if s != [] {
      FirstIndexFacts(s[1..], p);
      assert forall j :: 0 < j < |s| ==> s[j] == s[1..][j - 1];
    }
  }

  /** The tag of the first element that passes the test. */
  function FirstTag<T, U>(s: seq<T>, p: T -> bool, tags: seq<U>): Option<U>
    requires |tags| == |s|
  {
    match FirstIndex(s, p)
    case Some(i) => Some(tags[i])
    case None => None
  }

  /** With distinct tags, an element's tag is returned exactly when it is
      the first to pass the test. */
  lemma FirstTagFacts<T, U>(s: seq<T>, p: T -> bool, tags: seq<U>)
    requires |tags| == |s|
    requires forall i, j :: 0 <= i < j < |tags| ==> tags[i] != tags[j]
    ensures forall g :: 0 <= g < |s| ==>
              (FirstTag(s, p, tags) == Some(tags[g]) <==> p(s[g]) && forall j :: 0 <= j < g ==> !p(s[j]))
    ensures FirstTag(s, p, tags).None? <==> forall j :: 0 <= j < |s| ==> !p(s[j])
  {
    FirstIndexFacts(s, p);
  }

  /** Whether the message mentions a word of a group. */
  function MentionTest(msg: string): seq<string> -> bool
  {
    (words: seq<string>) => Chat.MentionsAny(msg, words)
  }

  /** `generateResponse`'s dispatch on the lowercased, trimmed message: the
      first keyword group mentioned, else the first roster student named,
      else a greeting, else the help text. */
  function Classify(roster: seq<Students.Student>, text: string): Intent
  {
    ClassifyMessage(roster, Chat.Normalize(text))
  }

  /** The dispatch on the normalised message. */
  function ClassifyMessage(roster: seq<Students.Student>, msg: string): Intent
  {
    match FirstTag(KeywordGroups, MentionTest(msg), KeywordIntents)
    case Some(intent) => intent
    case None =>
      match Chat.MatchStudent(roster, msg)
      case Some(s) => StudentLookup(s)
      case None => if Chat.IsGreeting(msg) then Greeting else Help
  }

  /** The first match wins: a keyword intent is chosen exactly when its
      group is mentioned and no earlier group is. */
  lemma ClassifyFirstMatch(roster: seq<Students.Student>, msg: string)
    ensures forall g :: 0 <= g < |KeywordGroups| ==>
              (ClassifyMessage(roster, msg) == KeywordIntents[g] <==>
                 Chat.MentionsAny(msg, KeywordGroups[g])
                 && forall h :: 0 <= h < g ==> !Chat.MentionsAny(msg, KeywordGroups[h]))
  {
    KeywordIntentsDistinct();
    FirstTagFacts(KeywordGroups, MentionTest(msg), KeywordIntents);
  }

  lemma KeywordIntentsDistinct()
    ensures |KeywordIntents| == |KeywordGroups|
    ensures forall i, j :: 0 <= i < j < |KeywordIntents| ==> KeywordIntents[i] != KeywordIntents[j]
    ensures forall i :: 0 <= i < |KeywordIntents| ==> !KeywordIntents[i].StudentLookup?
    ensures forall i :: 0 <= i < |KeywordIntents| ==> KeywordIntents[i] != Greeting && KeywordIntents[i] != Help
  {
  }

  /** A student is looked up only when no keyword group is mentioned, and
      it is the first roster student the message names; the greeting comes
      after that, and the help text last. */
  lemma ClassifyFallback(roster: seq<Students.Student>, msg: string)
    ensures var r := ClassifyMessage(roster, msg);
            var noKeyword := forall h :: 0 <= h < |KeywordGroups| ==> !Chat.MentionsAny(msg, KeywordGroups[h]);
            && (r.StudentLookup? <==> noKeyword && Chat.MatchStudent(roster, msg).Some?)
            && (r.StudentLookup? ==> Chat.MatchStudent(roster, msg) == Some(r.student) && r.student in roster)
            && (r == Greeting <==> noKeyword && Chat.MatchStudent(roster, msg).None? && Chat.IsGreeting(msg))
            && (r == Help <==> noKeyword && Chat.MatchStudent(roster, msg).None? && !Chat.IsGreeting(msg))
  {
    KeywordIntentsDistinct();
    FirstTagFacts(KeywordGroups, MentionTest(msg), KeywordIntents);
  }

  // ---------------------------------------------------------------------
  // The data a reply shows

  /** Every student's GPA, in hundredths. */
  function GpaIn(d: Flags.Dataset): Students.Student -> int
  {
    (s: Students.Student) => Grades.GetStudentGPA(d.grades, s.id)
  }

  /** Every student's attendance rate, in tenths of a percent. */
  function RateIn(d: Flags.Dataset): Students.Student -> int
    requires Flags.WellFormed(d)
  {
    (s: Students.Student) => Attendance.GetStudentAttendanceRate(d.attendance, s.id)
  }

  /** `Math.round(((meets + exceeds) / total) * 100)`: the percentage on or
      above grade level, which is NaN (none here) when nothing was counted. */
  function OnTrack(c: Assessments.ProficiencyCounts): (r: Option<int>)
    ensures r.None? <==> Assessments.Total(c) == 0
    ensures r.Some? ==> 0 <= r.value <= 100
  {
    var total := Assessments.Total(c);
    if total == 0 then None
    else
      RoundHalfUpWithin(100 * (c.meets + c.exceeds), total, 0, 100);
      Some(RoundHalfUp(100 * (c.meets + c.exceeds), total))
  }

  /** `getClassProficiency(source)`. */
  function ClassProficiency(d: Flags.Dataset, source: string): Assessments.ProficiencyCounts
  {
    Assessments.CountProficiencies(Assessments.LatestRecords(d.assessments, source))
  }

  function PeriodTest(period: string): Assessments.AssessmentRecord -> bool
  {
    (a: Assessments.AssessmentRecord) => a.period == period
  }

  /** A student's iReady Reading records. */
  function ReadingRecords(d: Flags.Dataset, studentId: string): seq<Assessments.AssessmentRecord>
  {
    Filter(Assessments.GetStudentAssessments(d.assessments, studentId), ProfileCard.SourceTest("iready-reading"))
  }

  /** Reading growth: the EOY score less the BOY score, or 0 when either is
      missing. */
  function GrowthOf(d: Flags.Dataset, s: Students.Student): (g: int)
    ensures Find(ReadingRecords(d, s.id), PeriodTest("BOY")).None? ==> g == 0
    ensures Find(ReadingRecords(d, s.id), PeriodTest("EOY")).None? ==> g == 0
  {
    var mine := ReadingRecords(d, s.id);
    var boy := Find(mine, PeriodTest("BOY"));
    var eoy := Find(mine, PeriodTest("EOY"));
    if boy.Some? && eoy.Some? then eoy.value.score - boy.value.score else 0
  }

  function GrowthIn(d: Flags.Dataset): Students.Student -> int
  {
    (s: Students.Student) => GrowthOf(d, s)
  }

  /** A student's latest record of an assessment source:
      `.filter(...).slice(-1)[0]`, the same pick as the profile card's. */
  function LatestOf(d: Flags.Dataset, studentId: string, source: string): (r: Option<Assessments.AssessmentRecord>)
    ensures r.Some? ==> r.value.studentId == studentId && r.value.source == source
  {
    ProfileCard.GetLatestAssessment(Assessments.GetStudentAssessments(d.assessments, studentId), source)
  }

  /** The flagged students, from the flags the rules raise for the roster. */
  function FlaggedIn(d: Flags.Dataset): seq<Flags.FlaggedStudent>
    requires Flags.WellFormed(d)
  {
    Flags.FlaggedStudentsIn(d.roster, Flags.AllFlagsOf(d, d.roster))
  }

  /** A reply: the data its text is written from. */
  datatype Reply =
    | AtRiskReply(flagged: seq<Flags.FlaggedStudent>)
    | TopReply(ranked: seq<Chat.Scored>)
    | AssessmentReply(reading: Assessments.ProficiencyCounts, math: Assessments.ProficiencyCounts,
                      readingOnTrack: Option<int>, mathOnTrack: Option<int>)
    | AttendanceReply(schoolRate: Option<int>, low: seq<Chat.Scored>)
    | OverviewReply(studentCount: nat, averageGpa: Option<int>, schoolRate: Option<int>,
                    flaggedCount: nat, readingOnTrack: Option<int>)
    | GrowthReply(top: seq<Chat.Scored>)
    | StudentReply(student: Students.Student, rate: int, gpa: int, rateTier: Chat.Tier, gpaTier: Chat.Tier,
                   latestReading: Option<Assessments.AssessmentRecord>,
                   latestMath: Option<Assessments.AssessmentRecord>)
    | GreetingReply
    | HelpReply

  /** The attendance threshold of the attendance reply, in tenths. */
  const LowAttendance := 900

  /** `generateResponse`: the reply to a message, read from the data. */
  function GenerateResponse(d: Flags.Dataset, text: string): (r: Reply)
    requires Flags.WellFormed(d)
  {
    match Classify(d.roster, text)
    case AtRisk => AtRiskReply(FlaggedIn(d))
    case TopPerformers => TopReply(Chat.TopFive(d.roster, GpaIn(d)))
    case AssessmentSnapshot =>
      var reading := ClassProficiency(d, "iready-reading");
      var math := ClassProficiency(d, "iready-math");
      AssessmentReply(reading, math, OnTrack(reading), OnTrack(math))
    case AttendanceConcerns =>
      AttendanceReply(SchoolRate(d), Chat.AscendingBelow(d.roster, RateIn(d), LowAttendance))
    case Overview =>
      OverviewReply(|d.roster|, AverageGpa(d), SchoolRate(d), |FlaggedIn(d)|,
                    OnTrack(ClassProficiency(d, "iready-reading")))
    case Growth => GrowthReply(Chat.TopFive(d.roster, GrowthIn(d)))
    case StudentLookup(s) =>
      var rate := Attendance.GetStudentAttendanceRate(d.attendance, s.id);
      var gpa := Grades.GetStudentGPA(d.grades, s.id);
      StudentReply(s, rate, gpa, Chat.AttendanceTier(rate), Chat.GpaTier(gpa),
                   LatestOf(d, s.id, "iready-reading"), LatestOf(d, s.id, "iready-math"))
    case Greeting => GreetingReply
    case Help => HelpReply
  }

  /** `getSchoolwideAttendanceRate()`: NaN (none here) with no records. */
  function SchoolRate(d: Flags.Dataset): (r: Option<int>)
    requires Flags.WellFormed(d)
    ensures r.None? <==> d.attendance == []
    ensures r.Some? ==> 0 <= r.value <= 1000
  {
    if d.attendance == [] then None else Some(Attendance.GetSchoolwideAttendanceRate(d.attendance))
  }

  /** `getClassAverageGPA()`: NaN (none here) with no students. */
  function AverageGpa(d: Flags.Dataset): (r: Option<int>)
    ensures r.None? <==> d.roster == []
    ensures r.Some? ==> 0 <= r.value <= 400
  {
    if d.roster == [] then None else Some(Grades.GetClassAverageGPA(d.grades, Students.Ids(d.roster)))
  }

  /** The reply answers the question the message asks, and its lists keep
      their promises: at most five top performers, highest GPA first; the
      attendance list holds exactly the students below 90%, lowest first;
      at most five growth entries, largest first; a looked-up student's
      tiers follow their rate and GPA. */
  lemma ResponseFacts(d: Flags.Dataset, text: string)
    requires Flags.WellFormed(d)
    ensures var r := GenerateResponse(d, text);
            match Classify(d.roster, text)
            case AtRisk => r == AtRiskReply(FlaggedIn(d))
            case TopPerformers =>
              r.TopReply? && |r.ranked| == Min(5, |d.roster|)
              && (forall i, j :: 0 <= i < j < |r.ranked| ==> r.ranked[i].value >= r.ranked[j].value)
              && (forall i :: 0 <= i < |r.ranked| ==> r.ranked[i].value == GpaIn(d)(r.ranked[i].student))
            case AssessmentSnapshot => r.AssessmentReply?
            case AttendanceConcerns =>
              r.AttendanceReply?
              && (forall i, j :: 0 <= i < j < |r.low| ==> r.low[i].value <= r.low[j].value)
              && (forall i :: 0 <= i < |r.low| ==> r.low[i].value < LowAttendance && r.low[i].student in d.roster)
              && (forall s :: s in d.roster && RateIn(d)(s) < LowAttendance ==> Chat.Scored(s, RateIn(d)(s)) in r.low)
            case Overview => r.OverviewReply? && r.studentCount == |d.roster|
            case Growth =>
              r.GrowthReply? && |r.top| == Min(5, |d.roster|)
              && (forall i, j :: 0 <= i < j < |r.top| ==> r.top[i].value >= r.top[j].value)
            case StudentLookup(s) =>
              r.StudentReply? && r.student == s
              && (r.rateTier == Chat.Weak <==> r.rate < 900) && (r.gpaTier == Chat.Weak <==> r.gpa < 200)
            case Greeting => r == GreetingReply
            case Help => r == HelpReply
  {
    match Classify(d.roster, text)
    case TopPerformers => Chat.TopFiveFacts(d.roster, GpaIn(d));
    case AttendanceConcerns => Chat.AscendingBelowFacts(d.roster, RateIn(d), LowAttendance);
    case Growth => Chat.TopFiveFacts(d.roster, GrowthIn(d));
    case _ =>
  }

  // ---------------------------------------------------------------------
  // The chat

  /** `(text || input).trim()`: the prompt given, or what is typed when
      none (or an empty one) is given. */
  function Outgoing(text: Option<string>, input: string): string
  {
    Trim(if text.Some? && text.value != "" then text.value else input)
  }

  /** The page's chat state. `pending` is the message the reply timer will
      answer. */
  class ChatPage {
    const data: Flags.Dataset
    var messages: seq<Chat.Message<Reply>>
    var input: string
    var isThinking: bool
    var pending: Option<string>

    ghost predicate Valid()
      reads this
    {
      Flags.WellFormed(data) && (isThinking <==> pending.Some?) && |messages| >= 1
    }

    /** The chat opens with the welcome message, nothing typed. */
    constructor(d: Flags.Dataset)
      requires Flags.WellFormed(d)
      ensures Valid() && data == d
      ensures messages == [Chat.Welcome] && input == "" && !isThinking
    {
      data := d;
      messages := [Chat.Welcome];
      input := "";
      isThinking := false;
      pending := None;
    }

    /** `handleSend(text?)`: sends the given prompt, or what is typed when
        none is given (or it is empty), trimmed. Nothing happens when that
        is blank or a reply is pending; otherwise the user's message is
        appended, the input cleared and a reply awaited. */
    method HandleSend(text: Option<string>)
      requires Valid()
      modifies this
      ensures Valid()
      ensures var trimmed := Outgoing(text, old(input));
              if Chat.CanSend(trimmed, old(isThinking)) then
                messages == old(messages) + [Chat.FromUser(trimmed)] && input == ""
                && isThinking && pending == Some(trimmed)
              else
                messages == old(messages) && input == old(input)
                && isThinking == old(isThinking) && pending == old(pending)
    {
      var trimmed := Outgoing(text, input);
      if trimmed == [] || isThinking {
        return;
      }
      messages := messages + [Chat.FromUser(trimmed)];
      input := "";
      isThinking := true;
      pending := Some(trimmed);
    }

    /** Typing replaces the input. */
    method OnChange(value: string)
      requires Valid()
      modifies this
      ensures Valid() && input == value && messages == old(messages)
      ensures isThinking == old(isThinking) && pending == old(pending)
    {
      input := value;
    }

    /** `handleKeyDown`: Enter without Shift sends what is typed. */
    method HandleKeyDown(key: string, shiftKey: bool)
      requires Valid()
      modifies this
      ensures Valid()
      ensures !(key == "Enter" && !shiftKey) ==>
                messages == old(messages) && input == old(input)
                && isThinking == old(isThinking) && pending == old(pending)
      ensures key == "Enter" && !shiftKey ==>
                var trimmed := Outgoing(None, old(input));
                if Chat.CanSend(trimmed, old(isThinking)) then
                  messages == old(messages) + [Chat.FromUser(trimmed)] && input == ""
                  && isThinking && pending == Some(trimmed)
                else
                  messages == old(messages) && input == old(input)
                  && isThinking == old(isThinking) && pending == old(pending)
    {
      if key == "Enter" && !shiftKey {
        HandleSend(None);
      }
    }

    /** The reply timer: appends exactly one reply, to the pending message,
        and stops thinking. */
    method ReceiveReply()
      requires Valid() && pending.Some?
      modifies this
      ensures Valid() && !isThinking && pending == None && input == old(input)
      ensures messages == old(messages) + [Chat.FromNori(GenerateResponse(data, old(pending).value))]
    {
      var reply := GenerateResponse(data, pending.value);
      messages := messages + [Chat.FromNori(reply)];
      isThinking := false;
      pending := None;
    }

    /** The suggested prompts show until the first message is sent. */
    predicate ShowPrompts()
      reads this
    {
      |messages| <= 1
    }
  }
}
