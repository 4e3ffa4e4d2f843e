// The landing page's animated demo profile card: a cycle that opens one
// section, shows its tooltips, closes it and flips the card to the next
// demo student (src/components/HeroProfileCard.tsx). Each timer callback
// is one transition method, enabled in the phase that scheduled it.

module HeroCard {
  import opened Common

  /** The sections the demo steps open, in step order. */
  const DemoSections: seq<string> := ["attendance", "grades", "iready", "fast", "discipline"]

  /** The number of demo students the card cycles through. */
  const DemoStudentCount := 5

  datatype Phase = Initial | Holding | Closing | FlipOut | FlipIn

  datatype Color = Green | Yellow | Red

  /** The header badge of a step: steps 0, 2 and 4 carry one. */
  datatype StepFlag = StepFlag(text: string, color: Color)

  function FlagOf(step: int): (r: Option<StepFlag>)
  {
    if step == 0 then Some(StepFlag("Attendance below 90%", Yellow))
    else if step == 2 then Some(StepFlag("iReady Reading — declining", Red))
    else if step == 4 then Some(StepFlag("Behavioral referral — Nov 2025", Yellow))
    else None
  }

  /** The status dot of a section while the card shows a step: attendance is
      yellow on step 0, iReady red on step 2, discipline yellow on step 4,
      everything else green. */
  function StatusColor(section: string, step: int): Color
  {
    if section == "attendance" && step == 0 then Yellow
    else if section == "iready" && step == 2 then Red
    else if section == "discipline" && step == 4 then Yellow
    else Green
  }

  /** A step carries a badge exactly when the section it opens is not
      green, and the badge has that section's colour. */
  lemma FlagMatchesSection(step: int)
    requires 0 <= step < |DemoSections|
    ensures FlagOf(step).Some? <==> StatusColor(DemoSections[step], step) != Green
    ensures FlagOf(step).Some? ==> FlagOf(step).value.color == StatusColor(DemoSections[step], step)
    ensures forall section :: section != DemoSections[step] ==> StatusColor(section, step) == Green
  {
  }

  /** Vertical centres of the section headers, in pixels from the card top. */
  const SectionTops: map<string, int> :=
    map["attendance" := 130, "grades" := 170, "iready" := 210, "fast" := 250, "discipline" := 290]

  /** `sectionTop`: where the side tooltips sit: 25 below the open section's
      header, or 225 with nothing open (or an unknown section). */
  function SectionTop(active: Option<string>): (r: int)
    ensures active.None? ==> r == 225
    ensures r in {155, 195, 225, 235, 275, 315}
  {
    (if active.Some? && active.value != "" then
       (if active.value in SectionTops then SectionTops[active.value] else 200)
     else 200) + 25
  }

  /** For the sections the steps open, the tooltips sit 40 pixels lower
      for each later step. */
  lemma SectionTopOfStep(step: int)
    requires 0 <= step < |DemoSections|
    ensures SectionTop(Some(DemoSections[step])) == 155 + 40 * step
  {
  }

  /** The card's turn in degrees: a slight -5 tilt plus half a turn per flip. */
  function Rotation(flipCount: int): (r: int)
    ensures flipCount % 2 == 0 ==> r % 360 == 355
  {
    -5 + flipCount * 180
  }

  class Card {
    var activeSection: Option<string>
    var flipCount: int
    var phase: Phase
    var showTooltip: bool
    var currentStep: int
    var studentIndex: int
    var stepRef: int
    /** Whether the mid-flip swap (the 500 ms timer) has run in this flip. */
    ghost var swapped: bool

    /** The card's invariant: indices in range, the ref in step with the
        state, only whole turns, and while holding the step's section open
        with its tooltips. */
    ghost predicate Valid()
      reads this
    {
      && 0 <= currentStep < |DemoSections|
      && 0 <= studentIndex < DemoStudentCount
      && stepRef == currentStep
      && flipCount >= 0 && flipCount % 2 == 0
      && (phase == Initial ==> flipCount == 0 && currentStep == 0 && studentIndex == 0 && activeSection == None)
      && (phase == Holding ==> activeSection == Some(DemoSections[currentStep]) && showTooltip)
      && phase != FlipIn
    }

    constructor()
      ensures Valid() && phase == Initial && !showTooltip
    {
      activeSection := None;
      flipCount := 0;
      phase := Initial;
      showTooltip := false;
      currentStep := 0;
      studentIndex := 0;
      stepRef := 0;
      swapped := false;
    }

    /** The first hold: opens the first step's section with its tooltips. */
    method StartDemo()
      requires Valid() && phase == Initial
      modifies this
      ensures Valid() && phase == Holding
      ensures activeSection == Some(DemoSections[0]) && showTooltip
      ensures flipCount == old(flipCount) && currentStep == old(currentStep) && studentIndex == old(studentIndex)
    {
      activeSection := Some(DemoSections[0]);
      showTooltip := true;
      phase := Holding;
    }

    /** The end of a hold: hides the tooltips and starts closing. */
    method EndHold()
      requires Valid() && phase == Holding
      modifies this
      ensures Valid() && phase == Closing && !showTooltip
      ensures activeSection == old(activeSection) && flipCount == old(flipCount)
      ensures currentStep == old(currentStep) && studentIndex == old(studentIndex)
    {
      showTooltip := false;
      phase := Closing;
    }

    /** 300 ms into closing: the section closes. */
    method CloseSection()
      requires Valid() && phase == Closing
      modifies this
      ensures Valid() && phase == Closing && activeSection == None
      ensures showTooltip == old(showTooltip) && flipCount == old(flipCount)
      ensures currentStep == old(currentStep) && studentIndex == old(studentIndex)
    {
      activeSection := None;
    }

    /** 900 ms into closing: the flip starts, turning the card a full turn. */
    method StartFlip()
      requires Valid() && phase == Closing
      modifies this
      ensures Valid() && phase == FlipOut && !swapped
      ensures flipCount == old(flipCount) + 2
      ensures Rotation(flipCount) == Rotation(old(flipCount)) + 360
      ensures activeSection == old(activeSection) && showTooltip == old(showTooltip)
      ensures currentStep == old(currentStep) && studentIndex == old(studentIndex)
    {
      phase := FlipOut;
      flipCount := flipCount + 2;
      swapped := false;
    }

    /** Mid-flip, face down: the next demo student and the next step, both
        wrapping round after the fifth. */
    method SwapStudent()
      requires Valid() && phase == FlipOut && !swapped
      modifies this
      ensures Valid() && phase == FlipOut && swapped
      ensures studentIndex == (old(studentIndex) + 1) % DemoStudentCount
      ensures currentStep == (old(currentStep) + 1) % |DemoSections| && stepRef == currentStep
      ensures activeSection == old(activeSection) && showTooltip == old(showTooltip) && flipCount == old(flipCount)
    {
      studentIndex := (studentIndex + 1) % DemoStudentCount;
      var next := (stepRef + 1) % |DemoSections|;
      stepRef := next;
      currentStep := next;
      swapped := true;
    }

    /** The flip done: the new step's section opens with its tooltips. */
    method EndFlip()
      requires Valid() && phase == FlipOut && swapped
      modifies this
      ensures Valid() && phase == Holding
      ensures activeSection == Some(DemoSections[currentStep]) && showTooltip
      ensures currentStep == old(currentStep) && studentIndex == old(studentIndex) && flipCount == old(flipCount)
    {
      activeSection := Some(DemoSections[stepRef]);
      showTooltip := true;
      phase := Holding;
    }

    /** Whatever transitions run, a started card never goes back to the
        initial phase and keeps its tilt at -5 degrees modulo a turn. */
    lemma StartedStaysStarted()
      requires Valid() && phase != Initial
      ensures Rotation(flipCount) % 360 == 355
      ensures 0 <= currentStep < |DemoSections| && 0 <= studentIndex < DemoStudentCount
    {
    }
  }
}
