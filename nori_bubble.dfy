// The floating assistant bubble (src/mockup/MockupNoriBubble.tsx): a
// smaller chat with its own dispatch, which tries a student's name before
// the class keywords, and the panel's open/closed state.

module NoriBubble {
  import opened Common
  import Students
  import Grades
  import Attendance
  import Flags
  import Chat
  import NoriPage

  /** What a message asks, in the order the bubble tries them. */
  datatype Intent = AtRisk | StudentLookup(student: Students.Student) | ClassOverview | Greeting | Help

  const RiskWords: seq<string> := ["help", "risk", "flag", "concern", "support", "struggling"]
  const ClassWords: seq<string> := ["class", "trend", "analytic", "overview", "summary"]

  /** The most flagged students the reply lists. */
  const MaxListed := 4

  /** `generateResponse`'s dispatch on the normalised message: the risk
      words, then the first roster student named, then the class words,
      then a greeting, then the help text. */
  function ClassifyMessage(roster: seq<Students.Student>, msg: string): (r: Intent)
    ensures r == AtRisk <==> Chat.MentionsAny(msg, RiskWords)
    ensures r.StudentLookup? <==> !Chat.MentionsAny(msg, RiskWords) && Chat.MatchStudent(roster, msg).Some?
    ensures r.StudentLookup? ==> Chat.MatchStudent(roster, msg) == Some(r.student) && r.student in roster
    ensures r == ClassOverview <==>
              !Chat.MentionsAny(msg, RiskWords) && Chat.MatchStudent(roster, msg).None?
              && Chat.MentionsAny(msg, ClassWords)
    ensures r == Greeting <==>
              !Chat.MentionsAny(msg, RiskWords) && Chat.MatchStudent(roster, msg).None?
              && !Chat.MentionsAny(msg, ClassWords) && Chat.IsGreeting(msg)
  {
    if Chat.MentionsAny(msg, RiskWords) then AtRisk
    else match Chat.MatchStudent(roster, msg)
      case Some(s) => StudentLookup(s)
      case None =>
        if Chat.MentionsAny(msg, ClassWords) then ClassOverview
        else if Chat.IsGreeting(msg) then Greeting
        else Help
  }

  function Classify(roster: seq<Students.Student>, text: string): Intent
  {
    ClassifyMessage(roster, Chat.Normalize(text))
  }

  /** A reply: the data its text is written from. */
  datatype Reply =
    | AtRiskReply(listed: seq<Flags.FlaggedStudent>)
    | StudentReply(student: Students.Student, rate: int, gpa: int, rateTier: Chat.Tier, gpaTier: Chat.Tier)
    | OverviewReply(studentCount: nat, averageRate: Option<int>, averageGpa: Option<int>, flaggedCount: nat)
    | GreetingReply
    | HelpReply

  /** The mean of the students' rates and GPAs, to the unit the reply
      shows; NaN (none here) with no students. */
  function MeanOver(roster: seq<Students.Student>, f: Students.Student -> int, hi: int): (r: Option<int>)
    requires forall i :: 0 <= i < |roster| ==> 0 <= f(roster[i]) <= hi
    ensures r.None? <==> roster == []
    ensures r.Some? ==> 0 <= r.value <= hi
  {
    if roster == [] then None
    else
      SumOfBounds(roster, f, 0, hi);
      RoundedMeanWithin(SumOf(roster, f), |roster|, 1, 0, hi);
      Some(RoundedMean(SumOf(roster, f), |roster|, 1))
  }

  /** `generateResponse`: the reply to a message, read from the data. */
  function GenerateResponse(d: Flags.Dataset, text: string): (r: Reply)
    requires Flags.WellFormed(d)
    ensures var flagged := NoriPage.FlaggedIn(d);
            match Classify(d.roster, text)
            case AtRisk =>
              r.AtRiskReply? && |r.listed| == Min(MaxListed, |flagged|) && r.listed <= flagged
              && (r.listed == [] <==> flagged == [])
            case StudentLookup(s) =>
              r.StudentReply? && r.student == s
              && r.rateTier == Chat.AttendanceTier(r.rate) && r.gpaTier == Chat.GpaTier(r.gpa)
            case ClassOverview =>
              r.OverviewReply? && r.studentCount == |d.roster| && r.flaggedCount == |flagged|
              && (r.averageRate.None? <==> d.roster == []) && (r.averageGpa.None? <==> d.roster == [])
              && (r.averageRate.Some? ==> 0 <= r.averageRate.value <= 1000)
              && (r.averageGpa.Some? ==> 0 <= r.averageGpa.value <= 400)
            case Greeting => r == GreetingReply
            case Help => r == HelpReply
  {
    match Classify(d.roster, text)
    case AtRisk => AtRiskReply(Take(NoriPage.FlaggedIn(d), MaxListed))
    case StudentLookup(s) =>
      var rate := Attendance.GetStudentAttendanceRate(d.attendance, s.id);
      var gpa := Grades.GetStudentGPA(d.grades, s.id);
      StudentReply(s, rate, gpa, Chat.AttendanceTier(rate), Chat.GpaTier(gpa))
    case ClassOverview =>
      OverviewReply(|d.roster|, MeanOver(d.roster, NoriPage.RateIn(d), 1000),
                    MeanOver(d.roster, NoriPage.GpaIn(d), 400), |NoriPage.FlaggedIn(d)|)
    case Greeting => GreetingReply
    case Help => HelpReply
  }

  // ---------------------------------------------------------------------
  // The two dispatches disagree

  /** A message that names a student and asks about the class. */
  const Example := "alex class"

  // The characters of the example are a, l, e, x, space, c and s.

  lemma ExampleNoRiskWords()
    ensures !Chat.MentionsAny(Example, NoriPage.RiskWords)
    ensures !Chat.MentionsAny(Example, RiskWords)
  {
    MissingChar(Example, "risk", 1); MissingChar(Example, "help", 0); MissingChar(Example, "flag", 0);
    MissingChar(Example, "concern", 1); MissingChar(Example, "support", 1); MissingChar(Example, "struggling", 1);
  }

  lemma ExampleNoTopWords()
    ensures !Chat.MentionsAny(Example, NoriPage.TopWords)
  {
    MissingChar(Example, "top", 0); MissingChar(Example, "best", 0); MissingChar(Example, "honor", 0);
    forall k | 0 <= k <= |Example| - 6 ensures !OccursAt(Example, "excell", k) {
      assert Example[k..k + 6][0] == Example[k] && Example[k..k + 6][2] == Example[k + 2];
    }
  }

  lemma ExampleNoDataWords()
    ensures !Chat.MentionsAny(Example, NoriPage.AssessmentWords)
    ensures !Chat.MentionsAny(Example, NoriPage.AttendanceWords)
  {
    MissingChar(Example, "assessment", 9); MissingChar(Example, "iready", 0); MissingChar(Example, "fast", 0);
    MissingChar(Example, "exam", 3); MissingChar(Example, "test", 0);
    MissingChar(Example, "attendance", 1); MissingChar(Example, "absent", 1); MissingChar(Example, "tardy", 0);
  }

  /** The example asks the page for the class overview: no earlier keyword
      group is mentioned, and "class" is. */
  lemma PageReadsClassWord()
    ensures NoriPage.ClassifyMessage(Students.Roster, Example) == NoriPage.Overview
  {
    ExampleNoRiskWords();
    ExampleNoTopWords();
    ExampleNoDataWords();
    assert NoriPage.OverviewWords[2] == "class" && OccursAt(Example, "class", 5);
    NoriPage.ClassifyFirstMatch(Students.Roster, Example);
    assert NoriPage.KeywordGroups[..4] == [NoriPage.RiskWords, NoriPage.TopWords, NoriPage.AssessmentWords, NoriPage.AttendanceWords];
    assert NoriPage.KeywordGroups[4] == NoriPage.OverviewWords && NoriPage.KeywordIntents[4] == NoriPage.Overview;
  }

  /** The example asks the bubble about Alex Anderson, the first roster
      student, because the bubble tries names before the class words: the
      two dispatches answer the same message differently. */
  lemma BubbleReadsName()
    ensures ClassifyMessage(Students.Roster, Example) == StudentLookup(Students.S01)
    ensures NoriPage.ClassifyMessage(Students.Roster, Example) == NoriPage.Overview
  {
    ExampleNoRiskWords();
    assert Students.Roster[0] == Students.S01;
    assert Lower(Students.S01.firstName) == "alex" && OccursAt(Example, "alex", 0);
    assert Chat.Names(Example, Students.Roster[0]);
    PageReadsClassWord();
  }

  // ---------------------------------------------------------------------
  // The chat

  /** The bubble's state: whether the panel is open, and the chat. */
  class ChatBubble {
    const data: Flags.Dataset
    var isOpen: bool
    var messages: seq<Chat.Message<Reply>>
    var input: string
    var isThinking: bool
    var pending: Option<string>

    ghost predicate Valid()
      reads this
    {
      Flags.WellFormed(data) && (isThinking <==> pending.Some?) && |messages| >= 1
    }

    /** Closed, with the welcome message and nothing typed. */
    constructor(d: Flags.Dataset)
      requires Flags.WellFormed(d)
      ensures Valid() && data == d && !isOpen
      ensures messages == [Chat.Welcome] && input == "" && !isThinking
    {
      data := d;
      isOpen := false;
      messages := [Chat.Welcome];
      input := "";
      isThinking := false;
      pending := None;
    }

    /** The launcher button opens a closed panel and closes an open one;
        the chat is kept. */
    method ToggleOpen()
      requires Valid()
      modifies this
      ensures Valid() && isOpen == !old(isOpen)
      ensures messages == old(messages) && input == old(input)
      ensures isThinking == old(isThinking) && pending == old(pending)
    {
      isOpen := !isOpen;
    }

    /** The panel's close button closes it; the chat is kept. */
    method Close()
      requires Valid()
      modifies this
      ensures Valid() && !isOpen
      ensures messages == old(messages) && input == old(input)
      ensures isThinking == old(isThinking) && pending == old(pending)
    {
      isOpen := false;
    }

    /** Typing replaces the input. */
    method OnChange(value: string)
      requires Valid()
      modifies this
      ensures Valid() && input == value && messages == old(messages)
      ensures isOpen == old(isOpen) && isThinking == old(isThinking) && pending == old(pending)
    {
      input := value;
    }

    /** `handleSend`: sends what is typed, trimmed, unless that is blank or a
        reply is pending. */
    method HandleSend()
      requires Valid()
      modifies this
      ensures Valid() && isOpen == old(isOpen)
      ensures var trimmed := Trim(old(input));
              if Chat.CanSend(trimmed, old(isThinking)) then
                messages == old(messages) + [Chat.FromUser(trimmed)] && input == ""
                && isThinking && pending == Some(trimmed)
              else
                messages == old(messages) && input == old(input)
                && isThinking == old(isThinking) && pending == old(pending)
    {
      var trimmed := Trim(input);
      if trimmed == [] || isThinking {
        return;
      }
      messages := messages + [Chat.FromUser(trimmed)];
      input := "";
      isThinking := true;
      pending := Some(trimmed);
    }

    /** Enter without Shift sends. */
    method HandleKeyDown(key: string, shiftKey: bool)
      requires Valid()
      modifies this
      ensures Valid() && isOpen == old(isOpen)
      ensures !(key == "Enter" && !shiftKey) ==>
                messages == old(messages) && input == old(input)
                && isThinking == old(isThinking) && pending == old(pending)
      ensures key == "Enter" && !shiftKey ==>
                var trimmed := Trim(old(input));
                if Chat.CanSend(trimmed, old(isThinking)) then
                  messages == old(messages) + [Chat.FromUser(trimmed)] && input == ""
                  && isThinking && pending == Some(trimmed)
                else
                  messages == old(messages) && input == old(input)
                  && isThinking == old(isThinking) && pending == old(pending)
    {
      if key == "Enter" && !shiftKey {
        HandleSend();
      }
    }

    /** The reply timer: one reply, to the pending message. */
    method ReceiveReply()
      requires Valid() && pending.Some?
      modifies this
      ensures Valid() && !isThinking && pending == None && input == old(input) && isOpen == old(isOpen)
      ensures messages == old(messages) + [Chat.FromNori(GenerateResponse(data, old(pending).value))]
    {
      var reply := GenerateResponse(data, pending.value);
      messages := messages + [Chat.FromNori(reply)];
      isThinking := false;
      pending := None;
    }
  }
}
