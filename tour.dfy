// The guided tour overlay: its step counter, the spotlight around each
// step's target and where the tooltip goes (src/mockup/MockupTour.tsx).
// Window sizes and the target's bounding box are parameters; lengths are
// CSS pixels as reals.

module Tour {
  import opened Common
  import Students
  import Session

  /** One stop of the tour: the `data-tour` target it highlights, the page
      it first opens (if any) and whether it selects the first student. */
  datatype TourStep = TourStep(target: string, preNavigate: Option<string>, selectStudent: bool)

  const Step0: TourStep := TourStep("welcome", Some("/try"), false)
  const Step1: TourStep := TourStep("search", None, false)
  const Step2: TourStep := TourStep("sidebar", None, false)
  const Step3: TourStep := TourStep("results", Some("/try/search"), false)
  const Step4: TourStep := TourStep("profile", Some("/try/profile"), true)
  const Step5: TourStep := TourStep("profile", None, false)
  const Step6: TourStep := TourStep("sidebar", None, false)
  const Step7: TourStep := TourStep("nori", None, false)

  const TourSteps: seq<TourStep> := [Step0, Step1, Step2, Step3, Step4, Step5, Step6, Step7]

  /** The tour has eight steps; only the fifth selects a student, and the
      first, fourth and fifth open a page first. */
  lemma TourStepsFacts()
    ensures |TourSteps| == 8
    ensures forall i :: 0 <= i < |TourSteps| ==> (TourSteps[i].selectStudent <==> i == 4)
    ensures forall i :: 0 <= i < |TourSteps| ==> (TourSteps[i].preNavigate.Some? <==> i in {0, 3, 4})
  {
  }

  /** A bounding box: top-left corner and size. */
  datatype Rect = Rect(top: real, left: real, width: real, height: real)

  datatype Placement = Above | Below

  datatype TooltipPos = TooltipPos(top: real, left: real, placement: Placement)

  const Padding: real := 8.0
  const TooltipW: real := 320.0
  const TooltipH: real := 160.0
  const Gap: real := 12.0

  /** The spotlight: the target's box grown by the padding on every side,
      around the same centre. */
  function Spotlight(rect: Rect): (r: Rect)
    ensures r.top == rect.top - 8.0 && r.left == rect.left - 8.0
    ensures r.top + r.height == rect.top + rect.height + 8.0
    ensures r.left + r.width == rect.left + rect.width + 8.0
    ensures r.left + r.width / 2.0 == rect.left + rect.width / 2.0
  {
    Rect(rect.top - Padding, rect.left - Padding, rect.width + Padding * 2.0, rect.height + Padding * 2.0)
  }

  /** The placement and position of the tooltip next to a spotlight. Below
      when more than 180 pixels are free under the spotlight, otherwise above
      when more than 180 are free over it, otherwise centred vertically (and
      said to be below); horizontally centred on the spotlight, then kept at
      least 12 from the left edge and, where the window allows, 12 from the
      right. */
  method PlaceTooltip(spot: Rect, innerWidth: real, innerHeight: real) returns (pos: TooltipPos)
    ensures innerHeight - (spot.top + spot.height) > TooltipH + 20.0 ==>
              pos.placement == Below && pos.top == spot.top + spot.height + Gap
              && pos.top + TooltipH + Padding < innerHeight
    ensures innerHeight - (spot.top + spot.height) <= TooltipH + 20.0 && spot.top > TooltipH + 20.0 ==>
              pos.placement == Above && pos.top + TooltipH + Gap == spot.top && pos.top > Padding
    ensures innerHeight - (spot.top + spot.height) <= TooltipH + 20.0 && spot.top <= TooltipH + 20.0 ==>
              pos.placement == Below && pos.top + TooltipH / 2.0 == innerHeight / 2.0
    ensures pos.left >= Gap
    ensures innerWidth >= TooltipW + 2.0 * Gap ==> pos.left + TooltipW + Gap <= innerWidth
    ensures Gap <= spot.left + spot.width / 2.0 - TooltipW / 2.0 <= innerWidth - TooltipW - Gap ==>
              pos.left + TooltipW / 2.0 == spot.left + spot.width / 2.0
  {
    var spaceBelow := innerHeight - (spot.top + spot.height);
    var spaceAbove := spot.top;
    var tTop: real;
    var placement: Placement;
    if spaceBelow > TooltipH + 20.0 {
      tTop := spot.top + spot.height + Gap;
      placement := Below;
    } else if spaceAbove > TooltipH + 20.0 {
      tTop := spot.top - TooltipH - Gap;
      placement := Above;
    } else {
      tTop := innerHeight / 2.0 - TooltipH / 2.0;
      placement := Below;
    }
    var tLeft := spot.left + spot.width / 2.0 - TooltipW / 2.0;
    tLeft := RealMax(Gap, RealMin(innerWidth - TooltipW - Gap, tLeft));
    pos := TooltipPos(tTop, tLeft, placement);
  }

  function RealMin(a: real, b: real): real { if a <= b then a else b }
  function RealMax(a: real, b: real): real { if a >= b then a else b }

  /** The overlay's state: the step shown, the spotlight (none when the
      target is not on the page), the tooltip position and whether a step
      change is in progress. */
  class TourOverlay {
    var currentStep: int
    var spotlight: Option<Rect>
    var tooltip: Option<TooltipPos>
    var isTransitioning: bool

    ghost predicate Valid()
      reads this
    {
      0 <= currentStep < |TourSteps|
    }

    constructor()
      ensures Valid() && currentStep == 0
      ensures spotlight == None && tooltip == None && !isTransitioning
    {
      currentStep := 0;
      spotlight := None;
      tooltip := None;
      isTransitioning := false;
    }

    /** `handleNext`: the next step, or on the last step the tour closes and
        the step stays. */
    method HandleNext(ctx: Session.AppContext)
      requires Valid()
      modifies this, ctx
      ensures Valid()
      ensures old(currentStep) < |TourSteps| - 1 ==> currentStep == old(currentStep) + 1 && ctx.showTour == old(ctx.showTour)
      ensures old(currentStep) == |TourSteps| - 1 ==> currentStep == old(currentStep) && !ctx.showTour
      ensures ctx.route == old(ctx.route) && ctx.selectedStudents == old(ctx.selectedStudents)
      ensures ctx.searchQuery == old(ctx.searchQuery) && ctx.sidebarOpen == old(ctx.sidebarOpen) && ctx.currentView == old(ctx.currentView)
      ensures spotlight == old(spotlight) && tooltip == old(tooltip) && isTransitioning == old(isTransitioning)
    {
      if currentStep < |TourSteps| - 1 {
        currentStep := currentStep + 1;
      } else {
        ctx.showTour := false;
      }
    }

    /** `handleBack`: the previous step; nothing on the first. */
    method HandleBack()
      requires Valid()
      modifies this
      ensures Valid()
      ensures old(currentStep) > 0 ==> currentStep == old(currentStep) - 1
      ensures old(currentStep) == 0 ==> currentStep == 0
      ensures spotlight == old(spotlight) && tooltip == old(tooltip) && isTransitioning == old(isTransitioning)
    {
      if currentStep > 0 {
        currentStep := currentStep - 1;
      }
    }

    /** `handleSkip`: closes the tour and returns to the welcome page. */
    method HandleSkip(ctx: Session.AppContext)
      modifies ctx
      ensures !ctx.showTour && ctx.route == "/try"
      ensures ctx.selectedStudents == old(ctx.selectedStudents)
      ensures ctx.searchQuery == old(ctx.searchQuery) && ctx.sidebarOpen == old(ctx.sidebarOpen) && ctx.currentView == old(ctx.currentView)
    {
      ctx.showTour := false;
      ctx.route := "/try";
    }

    /** The start of a step: marks the transition, selects the first roster
        student if the step says so and opens the step's page if it has one. */
    method BeginStep(ctx: Session.AppContext)
      requires Valid()
      modifies this, ctx
      ensures Valid() && currentStep == old(currentStep) && isTransitioning
      ensures TourSteps[currentStep].selectStudent ==> ctx.selectedStudents == [Students.Roster[0]]
      ensures !TourSteps[currentStep].selectStudent ==> ctx.selectedStudents == old(ctx.selectedStudents)
      ensures TourSteps[currentStep].preNavigate.Some? ==> ctx.route == TourSteps[currentStep].preNavigate.value
      ensures TourSteps[currentStep].preNavigate.None? ==> ctx.route == old(ctx.route)
      ensures ctx.showTour == old(ctx.showTour)
      ensures ctx.searchQuery == old(ctx.searchQuery) && ctx.sidebarOpen == old(ctx.sidebarOpen) && ctx.currentView == old(ctx.currentView)
      ensures spotlight == old(spotlight) && tooltip == old(tooltip)
    {
      isTransitioning := true;
      var step := TourSteps[currentStep];
      if step.selectStudent {
        ctx.selectedStudents := [Students.S01];
      }
      if step.preNavigate.Some? {
        ctx.route := step.preNavigate.value;
      }
    }

    /** `positionElements`: with no target on the page, no spotlight and the
        tooltip centred in the window; otherwise the spotlight around the
        target and the tooltip placed next to it. The periodic and resize
        re-positioning call it alone. */
    method PositionElements(target: Option<Rect>, innerWidth: real, innerHeight: real)
      requires Valid()
      modifies this
      ensures Valid() && currentStep == old(currentStep) && isTransitioning == old(isTransitioning)
      ensures target.None? ==>
                spotlight == None
                && tooltip == Some(TooltipPos(innerHeight / 2.0 - 80.0, innerWidth / 2.0 - 160.0, Below))
      ensures target.Some? ==>
                spotlight == Some(Spotlight(target.value)) && tooltip.Some?
                && tooltip.value.left >= Gap
                && (innerWidth >= TooltipW + 2.0 * Gap ==> tooltip.value.left + TooltipW + Gap <= innerWidth)
    {
      if target.None? {
        spotlight := None;
        tooltip := Some(TooltipPos(innerHeight / 2.0 - 80.0, innerWidth / 2.0 - 160.0, Below));
      } else {
        var spot := Spotlight(target.value);
        spotlight := Some(spot);
        var pos := PlaceTooltip(spot, innerWidth, innerHeight);
        tooltip := Some(pos);
      }
    }

    /** The end of a step change, after the wait for the page to settle:
        positions the elements and clears the transition flag. */
    method FinishStep(target: Option<Rect>, innerWidth: real, innerHeight: real)
      requires Valid()
      modifies this
      ensures Valid() && currentStep == old(currentStep) && !isTransitioning
      ensures target.None? ==> spotlight == None
      ensures target.Some? ==> spotlight == Some(Spotlight(target.value)) && tooltip.Some?
    {
      PositionElements(target, innerWidth, innerHeight);
      isTransitioning := false;
    }
  }
}
