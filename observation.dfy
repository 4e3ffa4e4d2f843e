// The classroom observation page (src/mockup/MockupObservation.tsx): the
// list of walkthroughs, the completed and scheduled counts, the average
// rating, the expandable details and the switch to the new-observation
// form.

module Observation {
  import opened Common

  datatype Status = Completed | InProgress | Scheduled

  /** One rated domain of an observation. */
  datatype Domain = Domain(name: string, rating: int)

  datatype ObservationRecord = ObservationRecord(
    id: string,
    teacher: string,
    date: string,
    status: Status,
    overallRating: Option<int>,
    domains: seq<Domain>)

  const PlanningDomain: string := "Planning & Preparation"
  const EnvironmentDomain: string := "Classroom Environment"
  const InstructionDomain: string := "Instruction"
  const ResponsibilitiesDomain: string := "Professional Responsibilities"

  function Domains(planning: int, environment: int, instruction: int, responsibilities: int): seq<Domain>
  {
    [Domain(PlanningDomain, planning), Domain(EnvironmentDomain, environment),
     Domain(InstructionDomain, instruction), Domain(ResponsibilitiesDomain, responsibilities)]
  }

  /** The five demo observations: three completed, two scheduled. */
  const DemoObservations: seq<ObservationRecord> := [
    ObservationRecord("OBS001", "Ms. Rodriguez", "01/15/2025", Completed, Some(4), Domains(4, 5, 4, 3)),
    ObservationRecord("OBS002", "Mr. Chen", "01/22/2025", Completed, Some(3), Domains(3, 4, 3, 3)),
    ObservationRecord("OBS003", "Mrs. Davis", "02/12/2025", Completed, Some(5), Domains(5, 5, 5, 4)),
    ObservationRecord("OBS004", "Ms. Patel", "02/28/2025", Scheduled, None, []),
    ObservationRecord("OBS005", "Mr. Thompson", "03/05/2025", Scheduled, None, [])
  ]

  // ---------------------------------------------------------------------
  // Counts and the average rating

  function StatusTest(status: Status): ObservationRecord -> bool
  {
    (o: ObservationRecord) => o.status == status
  }

  /** `completed`: the completed observations, in list order. */
  function CompletedOf(obs: seq<ObservationRecord>): (r: seq<ObservationRecord>)
    ensures forall o :: o in r <==> o in obs && o.status == Completed
  {
    FilterMembers(obs, StatusTest(Completed));
    Filter(obs, StatusTest(Completed))
  }

  /** `scheduled`: the scheduled observations, in list order. */
  function ScheduledOf(obs: seq<ObservationRecord>): (r: seq<ObservationRecord>)
    ensures forall o :: o in r <==> o in obs && o.status == Scheduled
  {
    FilterMembers(obs, StatusTest(Scheduled));
    Filter(obs, StatusTest(Scheduled))
  }

  /** No observation is both completed and scheduled, so the two counts add
      up to at most the total; an in-progress one is in neither. */
  lemma CompletedScheduledDisjoint(obs: seq<ObservationRecord>)
    ensures forall o :: o in CompletedOf(obs) ==> o !in ScheduledOf(obs)
    ensures |CompletedOf(obs)| + |ScheduledOf(obs)| <= |obs|
  {
    FilterDisjoint(obs, StatusTest(Completed), StatusTest(Scheduled));
  }

  /** `o.overallRating ?? 0`. */
  function RatingOf(): ObservationRecord -> int
  {
    (o: ObservationRecord) => if o.overallRating.Some? then o.overallRating.value else 0
  }

  /** `avgRating`, in tenths: 0 when nothing is completed, otherwise the
      mean overall rating, a missing rating counting 0, rounded to one
      decimal. */
  function AverageRating(completed: seq<ObservationRecord>): (r: int)
    ensures completed == [] ==> r == 0
    ensures completed != [] ==>
              2 * |completed| * r <= 20 * SumOf(completed, RatingOf()) + |completed|
                < 2 * |completed| * r + 2 * |completed|
  {
    if completed == [] then 0
    else
      RoundHalfUpNearest(10 * SumOf(completed, RatingOf()), |completed|);
      RoundedMean(SumOf(completed, RatingOf()), |completed|, 10)
  }

  predicate RatedWithin(o: ObservationRecord)
  {
    o.overallRating.Some? ==> 1 <= o.overallRating.value <= 5
  }

  /** With ratings on the 1 to 5 scale, the average lies between 0.0 and
      5.0. */
  lemma AverageRatingWithin(completed: seq<ObservationRecord>)
    requires forall i :: 0 <= i < |completed| ==> RatedWithin(completed[i])
    ensures 0 <= AverageRating(completed) <= 50
  {
    if completed != [] {
      SumOfBounds(completed, RatingOf(), 0, 5);
      RoundedMeanWithin(SumOf(completed, RatingOf()), |completed|, 10, 0, 5);
    }
  }

  /** The demo page shows three completed, two scheduled and an average of
      4.0. */
  lemma DemoFigures()
    ensures |CompletedOf(DemoObservations)| == 3 && |ScheduledOf(DemoObservations)| == 2
    ensures AverageRating(CompletedOf(DemoObservations)) == 40
  {
    var demo := DemoObservations;
    assert demo == demo[..3] + demo[3..];
    FilterAppend(demo[..3], demo[3..], StatusTest(Completed));
    FilterAppend(demo[..3], demo[3..], StatusTest(Scheduled));
    FilterAll(demo[..3], StatusTest(Completed));
    FilterNone(demo[3..], StatusTest(Completed));
    FilterNone(demo[..3], StatusTest(Scheduled));
    FilterAll(demo[3..], StatusTest(Scheduled));
    assert demo[..3] + [] == demo[..3];
    RoundHalfUpExact(40, 3);
  }

  // ---------------------------------------------------------------------
  // Stars and labels

  /** `i < rating`: which of the five stars are filled. */
  function Stars(rating: int): (r: seq<bool>)
    ensures |r| == 5
    ensures forall i :: 0 <= i < 5 ==> (r[i] <==> i < rating)
  {
    seq(5, i requires 0 <= i < 5 => i < rating)
  }

  function FilledCount(stars: seq<bool>): nat
  {
    if stars == [] then 0 else FilledCount(stars[..|stars| - 1]) + if stars[|stars| - 1] then 1 else 0
  }

  /** The filled stars form a prefix: a rating r in 0..5 fills exactly r
      stars, anything above 5 fills all five and anything below 0 none. */
  lemma StarsFilled(rating: int)
    ensures FilledCount(Stars(rating)) == Clamp(0, 5, rating)
  {
    var s := Stars(rating);
    assert s[..4][..3] == s[..3] && s[..3][..2] == s[..2] && s[..2][..1] == s[..1] && s[..1][..0] == [];
    assert FilledCount(s) == FilledCount(s[..4]) + (if s[4] then 1 else 0);
    assert FilledCount(s[..4]) == FilledCount(s[..3]) + (if s[3] then 1 else 0);
    assert FilledCount(s[..3]) == FilledCount(s[..2]) + (if s[2] then 1 else 0);
    assert FilledCount(s[..2]) == FilledCount(s[..1]) + (if s[1] then 1 else 0);
    assert FilledCount(s[..1]) == if s[0] then 1 else 0;
  }

  /** The overall rating is shown only when present and non-zero
      (`obs.overallRating && …`). */
  predicate ShowsRating(o: ObservationRecord)
  {
    o.overallRating.Some? && o.overallRating.value != 0
  }

  /** `ratingLabels[rating]?.label`: a name for 1 to 5, nothing otherwise. */
  function RatingLabel(rating: int): (r: Option<string>)
    ensures r.Some? <==> 1 <= rating <= 5
  {
    if rating == 1 then Some("Unsatisfactory")
    else if rating == 2 then Some("Developing")
    else if rating == 3 then Some("Proficient")
    else if rating == 4 then Some("Distinguished")
    else if rating == 5 then Some("Exemplary")
    else None
  }

  // ---------------------------------------------------------------------
  // Page state

  datatype View = List | NewForm

  function IdTest(id: string): ObservationRecord -> bool
  {
    (o: ObservationRecord) => o.id == id
  }

  /** `expandedObs`: the first observation with the selected id, if any is
      selected. */
  function Expanded(obs: seq<ObservationRecord>, selected: Option<string>): (r: Option<ObservationRecord>)
    ensures selected.None? ==> r.None?
    ensures r.Some? ==> r.value in obs && r.value.id == selected.value
    ensures selected.Some? && (exists i :: 0 <= i < |obs| && obs[i].id == selected.value) ==> r.Some?
  {
    if selected.None? then None else Find(obs, IdTest(selected.value))
  }

  /** Whether an observation's details are open: it is the selected one, it
      is completed, and the selection was found in the list. */
  predicate ShowsDetails(obs: seq<ObservationRecord>, selected: Option<string>, o: ObservationRecord)
  {
    selected == Some(o.id) && o.status == Completed && Expanded(obs, selected).Some?
  }

  /** Details open for a listed observation exactly when it is selected and
      completed, and then for no other id. */
  lemma DetailsIff(obs: seq<ObservationRecord>, selected: Option<string>, o: ObservationRecord)
    requires o in obs
    ensures ShowsDetails(obs, selected, o) <==> selected == Some(o.id) && o.status == Completed
    ensures ShowsDetails(obs, selected, o) ==> Expanded(obs, selected).value.id == o.id
  {
    var i :| 0 <= i < |obs| && obs[i] == o;
  }

  /** The selection after clicking observation `id`. */
  function NextSelection(selected: Option<string>, id: string): (r: Option<string>)
    ensures r == Some(id) <==> selected != Some(id)
    ensures r.None? <==> selected == Some(id)
  {
    if selected == Some(id) then None else Some(id)
  }

  /** Clicking the same observation twice from a state where it or nothing
      was selected returns to that state. */
  lemma ClickTwice(selected: Option<string>, id: string)
    requires selected.None? || selected == Some(id)
    ensures NextSelection(NextSelection(selected, id), id) == selected
  {
  }

  class ObservationPage {
    var selected: Option<string>
    var activeView: View

    constructor ()
      ensures selected.None? && activeView == List
    {
      selected := None;
      activeView := List;
    }

    /** The header button: switches between the list and the form. */
    method ToggleView()
      modifies this
      ensures activeView == (if old(activeView) == NewForm then List else NewForm)
      ensures activeView != old(activeView)
      ensures selected == old(selected)
    {
      activeView := if activeView == NewForm then List else NewForm;
    }

    /** The form's Cancel button: back to the list. */
    method Cancel()
      modifies this
      ensures activeView == List && selected == old(selected)
    {
      activeView := List;
    }

    /** Clicking an observation opens it, or closes it when already open. */
    method Click(id: string)
      modifies this
      ensures selected == NextSelection(old(selected), id)
      ensures old(selected) == Some(id) ==> selected.None?
      ensures old(selected) != Some(id) ==> selected == Some(id)
      ensures activeView == old(activeView)
    {
      selected := if selected == Some(id) then None else Some(id);
    }
  }
}
