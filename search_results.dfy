// The student search results table: query filter, column sort, row
// checkboxes and the actions on them (src/mockup/MockupSearchResults.tsx).

module SearchResults {
  import opened Common
  import opened Sorting
  import Students
  import Session

  datatype SortField = Name | Grade | Homeroom | Gender
  datatype SortDir = Asc | Desc

  // ---------------------------------------------------------------------
  // Filter

  /** One student matches the lowercased, trimmed query `q`. */
  predicate Matches(s: Students.Student, q: string)
  {
    || Contains(Lower(s.firstName), q)
    || Contains(Lower(s.lastName), q)
    || Contains(Lower(s.firstName + " " + s.lastName), q)
    || Contains(Lower(s.lastName + ", " + s.firstName), q)
    || Contains(s.studentNumber, q)
    || Lower(s.grade) == q
    || Contains(Lower(s.homeroom), q)
  }

  function MatchTest(q: string): Students.Student -> bool
  {
    (s: Students.Student) => Matches(s, q)
  }

  /** `filtered`: the whole roster for a blank query, otherwise the students
      matching the lowercased, trimmed query, in roster order. */
  function Filtered(roster: seq<Students.Student>, query: string): (r: seq<Students.Student>)
    ensures IsBlank(query) ==> r == roster
    ensures !IsBlank(query) ==>
              IsSubseq(r, roster)
              && (forall i :: 0 <= i < |r| ==> Matches(r[i], Trim(Lower(query))))
              && (forall i :: 0 <= i < |roster| && Matches(roster[i], Trim(Lower(query))) ==> roster[i] in r)
  {
    if IsBlank(query) then roster
    else
      var q := Trim(Lower(query));
      FilterIsSubseq(roster, MatchTest(q));
      FilterMembers(roster, MatchTest(q));
      Filter(roster, MatchTest(q))
  }

  // ---------------------------------------------------------------------
  // Sort

  function LastName(): Students.Student -> string { (s: Students.Student) => s.lastName }
  function FirstName(): Students.Student -> string { (s: Students.Student) => s.firstName }
  function GradeOf(): Students.Student -> string { (s: Students.Student) => s.grade }
  function HomeroomOf(): Students.Student -> string { (s: Students.Student) => s.homeroom }
  function GenderOf(): Students.Student -> string { (s: Students.Student) => Students.GenderName(s.gender) }

  /** The comparator for a column, ascending. */
  function Ascending(field: SortField): (Students.Student, Students.Student) -> int
  {
    match field
    case Name => ThenBy(CompareBy(LastName()), CompareBy(FirstName()))
    case Grade => CompareBy(GradeOf())
    case Homeroom => CompareBy(HomeroomOf())
    case Gender => CompareBy(GenderOf())
  }

  /** The comparator the table sorts with. */
  function Comparator(field: SortField, dir: SortDir): (Students.Student, Students.Student) -> int
  {
    if dir == Desc then Reversed(Ascending(field)) else Ascending(field)
  }

  lemma AscendingConsistent(field: SortField)
    ensures Antisymmetric(Ascending(field)) && Transitive(Ascending(field))
  {
    match field
    case Name =>
      CompareByConsistent(FirstName());
      ThenByConsistent(LastName(), CompareBy(FirstName()));
    case Grade => CompareByConsistent(GradeOf());
    case Homeroom => CompareByConsistent(HomeroomOf());
    case Gender => CompareByConsistent(GenderOf());
  }

  /** Every column's comparator, in either direction, orders consistently,
      so the stable sort yields a sorted permutation. */
  lemma ComparatorConsistent(field: SortField, dir: SortDir)
    ensures Antisymmetric(Comparator(field, dir)) && Transitive(Comparator(field, dir))
  {
    AscendingConsistent(field);
    if dir == Desc { ReversedConsistent(Ascending(field)); }
  }

  /** `sorted`: a reordering of `filtered` in which no student comes after
      one the comparator puts behind it. */
  function SortedRows(filtered: seq<Students.Student>, field: SortField, dir: SortDir): (r: seq<Students.Student>)
    ensures |r| == |filtered| && multiset(r) == multiset(filtered)
    ensures SortedBy(r, Comparator(field, dir))
  {
    ComparatorConsistent(field, dir);
    SortWithSorted(filtered, Comparator(field, dir));
    SortWith(filtered, Comparator(field, dir))
  }

  /** Sorting by name ascending orders by last name, then first name. */
  lemma SortedByName(filtered: seq<Students.Student>)
    ensures var r := SortedRows(filtered, Name, Asc);
            forall i, j :: 0 <= i < j < |r| ==>
              CompareStrings(r[i].lastName, r[j].lastName) < 0
              || (r[i].lastName == r[j].lastName && CompareStrings(r[i].firstName, r[j].firstName) <= 0)
  {
    var r := SortedRows(filtered, Name, Asc);
    forall i, j | 0 <= i < j < |r|
      ensures CompareStrings(r[i].lastName, r[j].lastName) < 0
              || (r[i].lastName == r[j].lastName && CompareStrings(r[i].firstName, r[j].firstName) <= 0)
    {
      assert Comparator(Name, Asc)(r[i], r[j]) <= 0;
      CompareStringsAntisymmetric(r[i].lastName, r[j].lastName);
    }
  }

  /** Sorting descending puts the rows in the reverse of the ascending
      comparator's order. */
  lemma SortedDescending(filtered: seq<Students.Student>, field: SortField)
    ensures var r := SortedRows(filtered, field, Desc);
            forall i, j :: 0 <= i < j < |r| ==> Ascending(field)(r[i], r[j]) >= 0
  {
    var r := SortedRows(filtered, field, Desc);
    forall i, j | 0 <= i < j < |r| ensures Ascending(field)(r[i], r[j]) >= 0 {
      assert Comparator(field, Desc)(r[i], r[j]) <= 0;
    }
  }

  /** The ids of some rows. */
  function RowIds(rows: seq<Students.Student>): set<string>
  {
    set i | 0 <= i < |rows| :: rows[i].id
  }

  /** The header checkbox: every row is checked, and there is a row. */
  predicate HeaderChecked(checkedIds: set<string>, sorted: seq<Students.Student>)
  {
    |checkedIds| == |sorted| && |sorted| > 0
  }

  function CheckedTest(checkedIds: set<string>): Students.Student -> bool
  {
    (s: Students.Student) => s.id in checkedIds
  }

  /** The table's own state: sort column, direction and checked ids. */
  class SearchTable {
    var sortField: SortField
    var sortDir: SortDir
    var checkedIds: set<string>

    constructor()
      ensures sortField == Name && sortDir == Asc && checkedIds == {}
    {
      sortField := Name;
      sortDir := Asc;
      checkedIds := {};
    }

    /** `toggleSort`: the current column flips direction; another column
        becomes the sort column, ascending. */
    method ToggleSort(field: SortField)
      modifies this
      ensures old(sortField) == field ==> sortField == field && sortDir == (if old(sortDir) == Asc then Desc else Asc)
      ensures old(sortField) != field ==> sortField == field && sortDir == Asc
      ensures checkedIds == old(checkedIds)
    {
      if sortField == field {
        sortDir := if sortDir == Asc then Desc else Asc;
      } else {
        sortField := field;
        sortDir := Asc;
      }
    }

    /** `toggleCheck`: flips the membership of one id and no other. */
    method ToggleCheck(id: string)
      modifies this
      ensures id in checkedIds <==> id !in old(checkedIds)
      ensures forall other :: other != id ==> (other in checkedIds <==> other in old(checkedIds))
      ensures sortField == old(sortField) && sortDir == old(sortDir)
    {
      if id in checkedIds {
        checkedIds := checkedIds - {id};
      } else {
        checkedIds := checkedIds + {id};
      }
    }

    /** `toggleAll`: clears the checks when as many are checked as there are
        rows, otherwise checks exactly the rows. */
    method ToggleAll(sorted: seq<Students.Student>)
      modifies this
      ensures |old(checkedIds)| == |sorted| ==> checkedIds == {}
      ensures |old(checkedIds)| != |sorted| ==> checkedIds == RowIds(sorted)
      ensures sortField == old(sortField) && sortDir == old(sortDir)
    {
      if |checkedIds| == |sorted| {
        checkedIds := {};
      } else {
        checkedIds := RowIds(sorted);
      }
    }

    /** `handleStudentClick`: selects that one student and opens the profile. */
    method HandleStudentClick(ctx: Session.AppContext, student: Students.Student)
      modifies ctx
      ensures ctx.selectedStudents == [student] && ctx.route == "/try/profile"
      ensures ctx.searchQuery == old(ctx.searchQuery) && ctx.sidebarOpen == old(ctx.sidebarOpen)
      ensures ctx.showTour == old(ctx.showTour) && ctx.currentView == old(ctx.currentView)
    {
      ctx.selectedStudents := [student];
      ctx.route := "/try/profile";
    }

    /** `handleViewSelected`: selects the checked students, in roster order,
        and opens the profile. */
    method HandleViewSelected(ctx: Session.AppContext, roster: seq<Students.Student>)
      modifies ctx
      ensures ctx.selectedStudents == Filter(roster, CheckedTest(checkedIds)) && ctx.route == "/try/profile"
      ensures ctx.searchQuery == old(ctx.searchQuery) && ctx.sidebarOpen == old(ctx.sidebarOpen)
      ensures ctx.showTour == old(ctx.showTour) && ctx.currentView == old(ctx.currentView)
    {
      ctx.selectedStudents := Filter(roster, CheckedTest(checkedIds));
      ctx.route := "/try/profile";
    }
  }

  /** The selection made from the checks is exactly the checked roster
      students, in roster order. */
  lemma ViewSelectedExactly(roster: seq<Students.Student>, checkedIds: set<string>)
    ensures var selected := Filter(roster, CheckedTest(checkedIds));
            IsSubseq(selected, roster)
            && (forall i :: 0 <= i < |selected| ==> selected[i].id in checkedIds)
            && (forall i :: 0 <= i < |roster| && roster[i].id in checkedIds ==> roster[i] in selected)
  {
    FilterIsSubseq(roster, CheckedTest(checkedIds));
    FilterMembers(roster, CheckedTest(checkedIds));
  }

  /** After checking all rows of a non-empty table with distinct ids, the
      header checkbox shows checked. */
  lemma ToggleAllChecksHeader(sorted: seq<Students.Student>)
    requires NoDup(Students.Ids(sorted)) && sorted != []
    ensures HeaderChecked(RowIds(sorted), sorted)
  {
    RowIdsCount(sorted);
  }

  lemma {:induction false} RowIdsCount(rows: seq<Students.Student>)
    requires NoDup(Students.Ids(rows))
    ensures |RowIds(rows)| == |rows|
  {
    if rows != [] {
      var front := rows[..|rows| - 1];
      assert Students.Ids(front) == Students.Ids(rows)[..|rows| - 1];
      RowIdsCount(front);
      assert RowIds(rows) == RowIds(front) + {rows[|rows| - 1].id};
      assert rows[|rows| - 1].id !in RowIds(front);
    }
  }
}
