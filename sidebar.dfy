// The dashboard's navigation sidebar (src/mockup/MockupSidebar.tsx): which
// item is highlighted for the current route, what a click does, and when
// an item's tooltip shows.

module Sidebar {
  import opened Common
  import Session

  /** A menu entry. An entry without a path is a feature not yet available. */
  datatype MenuItem = MenuItem(title: string, path: Option<string>, tooltip: Option<string>, badge: Option<string>)

  const SearchItem := MenuItem("Profile Search", Some("/try/search"), None, None)
  const ReportsItem := MenuItem("Student Reports", Some("/try/reports"), None, None)
  const FlaggingItem := MenuItem("Flagging System", Some("/try/flagging"), None, None)
  const ClassItem := MenuItem("Class Analytics", Some("/try/analytics"), None, None)
  const GradeItem := MenuItem("Grade Analytics", Some("/try/grade-analytics"), None, None)
  const ExamItem := MenuItem("Exam Analytics", Some("/try/exam-analytics"), None, None)
  const ObservationItem := MenuItem("Observation", Some("/try/observation"), None, None)
  const NoriItem := MenuItem("Nori AI", Some("/try/nori"), None, Some("BETA"))

  const MenuItems: seq<MenuItem> :=
    [SearchItem, ReportsItem, FlaggingItem, ClassItem, GradeItem, ExamItem, ObservationItem, NoriItem]

  /** JavaScript truthiness of an optional string: present and not empty. */
  predicate Truthy(s: Option<string>)
  {
    s.Some? && s.value != ""
  }

  /** `isActive(path)`: the route is the item's path or lies below it. */
  predicate IsActive(pathname: string, path: Option<string>)
  {
    Truthy(path) && (pathname == path.value || StartsWith(pathname, path.value + "/"))
  }

  /** An item is active exactly when its path is a prefix of the route that
      ends the route or is followed by a '/': "/try/searchx" does not
      activate "/try/search". An item without a path is never active. */
  lemma IsActiveIff(pathname: string, path: Option<string>)
    ensures !Truthy(path) ==> !IsActive(pathname, path)
    ensures Truthy(path) ==>
              (IsActive(pathname, path) <==>
                 path.value <= pathname && (|pathname| == |path.value| || pathname[|path.value|] == '/'))
  {
    if Truthy(path) {
      var p := path.value;
      if p <= pathname && |pathname| > |p| && pathname[|p|] == '/' {
        assert pathname[..|p| + 1] == p + "/";
      }
      if StartsWith(pathname, p + "/") {
        assert pathname[..|p|] == (p + "/")[..|p|] == p;
      }
    }
  }

  /** Two paths active on the same route are prefixes of one another. */
  lemma ActivePathsNested(pathname: string, p: Option<string>, q: Option<string>)
    requires IsActive(pathname, p) && IsActive(pathname, q) && |p.value| <= |q.value|
    ensures p.value <= q.value
  {
    IsActiveIff(pathname, p);
    IsActiveIff(pathname, q);
    assert p.value == pathname[..|p.value|] && q.value == pathname[..|q.value|];
  }

  /** The menu's paths all start "/try/" and differ at the next character. */
  lemma MenuPathsDiffer()
    ensures forall i :: 0 <= i < |MenuItems| ==> Truthy(MenuItems[i].path) && |MenuItems[i].path.value| > 5
    ensures forall i, j :: 0 <= i < j < |MenuItems| ==> MenuItems[i].path.value[5] != MenuItems[j].path.value[5]
  {
  }

  /** At most one menu item is highlighted, whatever the route. */
  lemma AtMostOneActive(pathname: string, i: int, j: int)
    requires 0 <= i < j < |MenuItems|
    ensures !(IsActive(pathname, MenuItems[i].path) && IsActive(pathname, MenuItems[j].path))
  {
    MenuPathsDiffer();
    var p := MenuItems[i].path;
    var q := MenuItems[j].path;
    if IsActive(pathname, p) && IsActive(pathname, q) {
      if |p.value| <= |q.value| {
        ActivePathsNested(pathname, p, q);
      } else {
        ActivePathsNested(pathname, q, p);
      }
    }
  }

  /** `handleItemClick`: an item with a path navigates there and closes the
      sidebar; an item without one does nothing. */
  method HandleItemClick(ctx: Session.AppContext, item: MenuItem)
    modifies ctx
    ensures Truthy(item.path) ==> ctx.route == item.path.value && !ctx.sidebarOpen
    ensures !Truthy(item.path) ==> ctx.route == old(ctx.route) && ctx.sidebarOpen == old(ctx.sidebarOpen)
    ensures ctx.selectedStudents == old(ctx.selectedStudents) && ctx.searchQuery == old(ctx.searchQuery)
    ensures ctx.showTour == old(ctx.showTour) && ctx.currentView == old(ctx.currentView)
  {
    if Truthy(item.path) {
      ctx.route := item.path.value;
      ctx.sidebarOpen := false;
    }
  }

  /** The logo links back to the welcome page and closes the sidebar. */
  method LogoClick(ctx: Session.AppContext)
    modifies ctx
    ensures ctx.route == "/try" && !ctx.sidebarOpen
    ensures ctx.selectedStudents == old(ctx.selectedStudents) && ctx.searchQuery == old(ctx.searchQuery)
    ensures ctx.showTour == old(ctx.showTour) && ctx.currentView == old(ctx.currentView)
  {
    ctx.route := "/try";
    ctx.sidebarOpen := false;
  }

  /** The close button of the small-screen sidebar closes it where it is. */
  method CloseClick(ctx: Session.AppContext)
    modifies ctx
    ensures !ctx.sidebarOpen && ctx.route == old(ctx.route)
    ensures ctx.selectedStudents == old(ctx.selectedStudents) && ctx.searchQuery == old(ctx.searchQuery)
    ensures ctx.showTour == old(ctx.showTour) && ctx.currentView == old(ctx.currentView)
  {
    ctx.sidebarOpen := false;
  }

  /** The item under the pointer. */
  class HoverState {
    var hoveredItem: Option<string>

    constructor()
      ensures hoveredItem == None
    {
      hoveredItem := None;
    }

    method MouseEnter(item: MenuItem)
      modifies this
      ensures hoveredItem == Some(item.title)
    {
      hoveredItem := Some(item.title);
    }

    method MouseLeave()
      modifies this
      ensures hoveredItem == None
    {
      hoveredItem := None;
    }

    /** The tooltip shows for the hovered item only, when it has a tooltip
        and no path. */
    predicate ShowsTooltip(item: MenuItem)
      reads this
    {
      Truthy(item.tooltip) && hoveredItem == Some(item.title) && !Truthy(item.path)
    }
  }

  /** No item of the menu shows a tooltip: each has a path. */
  lemma MenuHasNoTooltips(h: HoverState, i: int)
    requires 0 <= i < |MenuItems|
    ensures !h.ShowsTooltip(MenuItems[i])
  {
    MenuPathsDiffer();
  }
}
