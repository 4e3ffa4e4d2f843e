// The top bar's search box: live suggestions, the search action and the
// suggestion dropdown (src/mockup/MockupHeader.tsx).

module Header {
  import opened Common
  import Students
  import Session

  /** The most suggestions the dropdown lists. */
  const MaxSuggestions := 6

  /** A student matches the typed text: a case-insensitive substring of the
      first, last, "First Last" or "Last, First" name, or a raw substring of
      the student number. */
  predicate Suggests(s: Students.Student, query: string)
  {
    || Contains(Lower(s.firstName), Lower(query))
    || Contains(Lower(s.lastName), Lower(query))
    || Contains(s.studentNumber, query)
    || Contains(Lower(s.firstName + " " + s.lastName), Lower(query))
    || Contains(Lower(s.lastName + ", " + s.firstName), Lower(query))
  }

  function SuggestTest(query: string): Students.Student -> bool
  {
    (s: Students.Student) => Suggests(s, query)
  }

  /** `suggestions`: nothing for empty text, otherwise the first six matching
      roster students. */
  function Suggestions(roster: seq<Students.Student>, query: string): (r: seq<Students.Student>)
  {
    if |query| >= 1 then Take(Filter(roster, SuggestTest(query)), MaxSuggestions) else []
  }

  /** Suggestions are an order-preserving selection of at most six matching
      roster students; empty text suggests nothing; and when fewer than six
      students match, every match is suggested. */
  lemma SuggestionsFacts(roster: seq<Students.Student>, query: string)
    ensures var r := Suggestions(roster, query);
            && |r| <= MaxSuggestions
            && IsSubseq(r, roster)
            && (query == [] ==> r == [])
            && (forall i :: 0 <= i < |r| ==> Suggests(r[i], query))
            && (query != [] && |Filter(roster, SuggestTest(query))| <= MaxSuggestions ==>
                  forall i :: 0 <= i < |roster| && Suggests(roster[i], query) ==> roster[i] in r)
  {
    var matches := Filter(roster, SuggestTest(query));
    FilterIsSubseq(roster, SuggestTest(query));
    FilterMembers(roster, SuggestTest(query));
    if query != [] {
      PrefixSubseq(Take(matches, MaxSuggestions), matches, roster);
    }
  }

  /** The dropdown shows only while open and with something to show. */
  predicate DropdownVisible(showDropdown: bool, suggestions: seq<Students.Student>)
  {
    showDropdown && |suggestions| > 0
  }

  /** The dropdown is visible exactly when it is open, text has been typed
      and some roster student matches it. */
  lemma DropdownVisibleIff(roster: seq<Students.Student>, query: string, showDropdown: bool)
    ensures DropdownVisible(showDropdown, Suggestions(roster, query))
            <==> showDropdown && query != [] && exists i :: 0 <= i < |roster| && Suggests(roster[i], query)
  {
    FilterMembers(roster, SuggestTest(query));
    var matches := Filter(roster, SuggestTest(query));
    if query != [] && (exists i :: 0 <= i < |roster| && Suggests(roster[i], query)) {
      var i :| 0 <= i < |roster| && Suggests(roster[i], query);
      assert roster[i] in matches;
    }
  }

  /** The search box's own state: the text being typed and whether the
      dropdown is open. */
  class SearchBox {
    var localQuery: string
    var showDropdown: bool

    /** The box starts with the shared query and the dropdown closed. */
    constructor(ctx: Session.AppContext)
      ensures localQuery == ctx.searchQuery && !showDropdown
    {
      localQuery := ctx.searchQuery;
      showDropdown := false;
    }

    /** Typing replaces the text and opens the dropdown. */
    method OnChange(value: string)
      modifies this
      ensures localQuery == value && showDropdown
    {
      localQuery := value;
      showDropdown := true;
    }

    /** Focusing the input opens the dropdown. */
    method OnFocus()
      modifies this
      ensures showDropdown && localQuery == old(localQuery)
    {
      showDropdown := true;
    }

    /** `handleSearch`: publishes the text as the shared query, closes the
        dropdown and opens the results page. */
    method HandleSearch(ctx: Session.AppContext)
      modifies this, ctx
      ensures ctx.searchQuery == localQuery && !showDropdown && ctx.route == "/try/search"
      ensures localQuery == old(localQuery)
      ensures ctx.selectedStudents == old(ctx.selectedStudents) && ctx.sidebarOpen == old(ctx.sidebarOpen)
      ensures ctx.showTour == old(ctx.showTour) && ctx.currentView == old(ctx.currentView)
    {
      ctx.searchQuery := localQuery;
      showDropdown := false;
      ctx.route := "/try/search";
    }

    /** `handleKeyDown`: Enter searches; any other key changes nothing. */
    method HandleKeyDown(key: string, ctx: Session.AppContext)
      modifies this, ctx
      ensures key == "Enter" ==> ctx.searchQuery == localQuery && !showDropdown && ctx.route == "/try/search"
      ensures key != "Enter" ==> showDropdown == old(showDropdown) && ctx.searchQuery == old(ctx.searchQuery)
                                  && ctx.route == old(ctx.route)
      ensures localQuery == old(localQuery)
      ensures ctx.selectedStudents == old(ctx.selectedStudents) && ctx.sidebarOpen == old(ctx.sidebarOpen)
      ensures ctx.showTour == old(ctx.showTour) && ctx.currentView == old(ctx.currentView)
    {
      if key == "Enter" {
        HandleSearch(ctx);
      }
    }

    /** `handleSelectSuggestion`: selects exactly that student, closes the
        dropdown, clears the text and opens the profile. */
    method HandleSelectSuggestion(student: Students.Student, ctx: Session.AppContext)
      modifies this, ctx
      ensures ctx.selectedStudents == [student] && !showDropdown && localQuery == ""
      ensures ctx.route == "/try/profile" && ctx.searchQuery == old(ctx.searchQuery)
      ensures ctx.sidebarOpen == old(ctx.sidebarOpen) && ctx.showTour == old(ctx.showTour) && ctx.currentView == old(ctx.currentView)
    {
      ctx.selectedStudents := [student];
      showDropdown := false;
      localQuery := "";
      ctx.route := "/try/profile";
    }

    /** A mouse press outside the search area closes the dropdown; one
        inside it changes nothing. */
    method HandleMouseDown(insideSearch: bool)
      modifies this
      ensures showDropdown == (old(showDropdown) && insideSearch)
      ensures localQuery == old(localQuery)
    {
      if !insideSearch {
        showDropdown := false;
      }
    }

    /** The hamburger button opens the sidebar. */
    method OpenSidebar(ctx: Session.AppContext)
      modifies ctx
      ensures ctx.sidebarOpen && ctx.route == old(ctx.route)
      ensures ctx.selectedStudents == old(ctx.selectedStudents) && ctx.searchQuery == old(ctx.searchQuery)
      ensures ctx.showTour == old(ctx.showTour) && ctx.currentView == old(ctx.currentView)
    {
      ctx.sidebarOpen := true;
    }
  }
}
