// The state the demo pages share through their context provider
// (src/mockup/MockupApp.tsx), and the in-app location that `navigate`
// moves.

module Session {
  import Students

  /** The provider's state. `route` is the in-app location the router shows. */
  class AppContext {
    var searchQuery: string
    var selectedStudents: seq<Students.Student>
    var sidebarOpen: bool
    var showTour: bool
    var currentView: string
    var route: string

    /** The provider's initial state: no query, nothing selected, sidebar
        closed, the tour showing, on the welcome page. */
    constructor()
      ensures searchQuery == "" && selectedStudents == [] && !sidebarOpen && showTour
      ensures currentView == "welcome" && route == "/try"
    {
      searchQuery := "";
      selectedStudents := [];
      sidebarOpen := false;
      showTour := true;
      currentView := "welcome";
      route := "/try";
    }
  }
}
