// The landing page's scripted chat demo: a user question types itself
// out, a thinking indicator shows, then the assistant's answer types out
// (src/sections/NoriShowcase.tsx). Each effect or timer callback is one
// transition method, enabled in the phase that scheduled it.

module NoriShowcase {
  const UserMessage: string :=
    "I'm meeting with Maya Rodriguez's parents tomorrow. Can you give me a quick summary?"

  const NoriResponse: string :=
    "Maya is a 4th grader in Mr. Thompson's class. Her math is strong — iReady Math: 512, On Grade Level — but reading has declined across three windows: 458 → 438 → 415, now Below Grade Level. Attendance is at 87.4% with 16 absences. I'd suggest focusing on a reading intervention plan and following up on the attendance trend."

  /** The lengths of the two messages, in UTF-16 code units (all their
      characters are in the Basic Multilingual Plane). */
  const UserLength: nat := 84
  const NoriLength: nat := 323

  lemma MessageLengths()
    ensures |UserMessage| == UserLength && |NoriResponse| == NoriLength
  {
  }

  datatype Phase = Idle | UserTyping | UserDone | Thinking | NoriTyping | Done

  /** The position of a phase in the script. */
  function Rank(p: Phase): (r: nat)
    ensures r <= 5
  {
    match p
    case Idle => 0
    case UserTyping => 1
    case UserDone => 2
    case Thinking => 3
    case NoriTyping => 4
    case Done => 5
  }

  /** Phases are ranked one to one. */
  lemma RankInjective(p: Phase, q: Phase)
    ensures Rank(p) == Rank(q) <==> p == q
  {
  }

  /** The user's bubble shows from the first keystroke on. */
  predicate ShowUser(p: Phase) { p != Idle }

  /** The dots show only while thinking. */
  predicate ShowThinking(p: Phase) { p == Thinking }

  /** The answer's bubble shows while and after it types. */
  predicate ShowNori(p: Phase) { p == NoriTyping || p == Done }

  /** Exactly one stage of the conversation is on screen past the start:
      the question alone before the answer, with the dots only in between. */
  lemma BubblesByPhase(p: Phase)
    ensures ShowUser(p) <==> Rank(p) >= 1
    ensures ShowNori(p) <==> Rank(p) >= 4
    ensures ShowThinking(p) ==> ShowUser(p) && !ShowNori(p)
  {
  }

  /** The text a bubble shows after `chars` keystrokes: a prefix of the
      whole message. */
  function Typed(message: string, chars: nat): (r: string)
    requires chars <= |message|
    ensures |r| == chars && r <= message
    ensures chars == |message| ==> r == message
  {
    message[..chars]
  }

  class Showcase {
    var phase: Phase
    var userChars: nat
    var noriChars: nat
    var hasStarted: bool
    /** The 600 ms start timer is pending. */
    var startPending: bool

    /** Counters within their messages, each full once its phase is over,
        and the latch set once anything started. */
    ghost predicate Valid()
      reads this
    {
      && userChars <= UserLength && noriChars <= NoriLength
      && (Rank(phase) <= 1 ==> noriChars == 0)
      && (phase == Idle ==> userChars == 0)
      && (Rank(phase) >= 2 ==> userChars == UserLength)
      && (phase == Done ==> noriChars == NoriLength)
      && (Rank(phase) <= 3 ==> noriChars == 0)
      && (phase != Idle || startPending ==> hasStarted)
      && (startPending ==> phase == Idle)
    }

    constructor()
      ensures Valid() && phase == Idle && userChars == 0 && noriChars == 0
      ensures !hasStarted && !startPending
    {
      phase := Idle;
      userChars := 0;
      noriChars := 0;
      hasStarted := false;
      startPending := false;
    }

    /** The section scrolled into view: the first time only, the latch is
        set and the start is scheduled. */
    method OnVisible(isVisible: bool)
      requires Valid()
      modifies this
      ensures Valid() && phase == old(phase) && userChars == old(userChars) && noriChars == old(noriChars)
      ensures isVisible && !old(hasStarted) ==> hasStarted && startPending
      ensures !(isVisible && !old(hasStarted)) ==> hasStarted == old(hasStarted) && startPending == old(startPending)
    {
      if isVisible && !hasStarted {
        hasStarted := true;
        startPending := true;
      }
    }

    /** The start timer fires: the question starts typing. */
    method StartTyping()
      requires Valid() && startPending
      modifies this
      ensures Valid() && phase == UserTyping && !startPending && hasStarted
      ensures userChars == old(userChars) && noriChars == old(noriChars)
    {
      phase := UserTyping;
      startPending := false;
    }

    /** One beat of the question typing: one more character, or with the
        whole question shown, on to `UserDone`. */
    method TypeUser()
      requires Valid() && phase == UserTyping
      modifies this
      ensures Valid() && noriChars == old(noriChars) && hasStarted == old(hasStarted)
      ensures old(userChars) < UserLength ==> userChars == old(userChars) + 1 && phase == UserTyping
      ensures old(userChars) == UserLength ==> userChars == old(userChars) && phase == UserDone
    {
      if userChars >= UserLength {
        phase := UserDone;
      } else {
        userChars := userChars + 1;
      }
    }

    /** 800 ms after the question: thinking. */
    method StartThinking()
      requires Valid() && phase == UserDone
      modifies this
      ensures Valid() && phase == Thinking
      ensures userChars == old(userChars) && noriChars == old(noriChars) && hasStarted == old(hasStarted)
    {
      phase := Thinking;
    }

    /** 2 s of thinking: the answer starts typing. */
    method StartAnswer()
      requires Valid() && phase == Thinking
      modifies this
      ensures Valid() && phase == NoriTyping
      ensures userChars == old(userChars) && noriChars == old(noriChars) && hasStarted == old(hasStarted)
    {
      phase := NoriTyping;
    }

    /** One beat of the answer typing: one more character, or with the
        whole answer shown, `Done`. */
    method TypeNori()
      requires Valid() && phase == NoriTyping
      modifies this
      ensures Valid() && userChars == old(userChars) && hasStarted == old(hasStarted)
      ensures old(noriChars) < NoriLength ==> noriChars == old(noriChars) + 1 && phase == NoriTyping
      ensures old(noriChars) == NoriLength ==> noriChars == old(noriChars) && phase == Done
    {
      if noriChars >= NoriLength {
        phase := Done;
      } else {
        noriChars := noriChars + 1;
      }
    }

    /** Once the answer shows, the question is shown in full. */
    lemma AnswerFollowsWholeQuestion()
      requires Valid() && ShowNori(phase)
      ensures Typed(UserMessage, userChars) == UserMessage
    {
      MessageLengths();
    }
  }
}
