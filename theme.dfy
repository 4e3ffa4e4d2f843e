// The landing page's light/dark theme (src/hooks/useTheme.ts).

module Theme {
  import opened Common

  datatype Theme = Light | Dark

  /** The value stored for a theme. */
  function StoredName(t: Theme): string
  {
    match t
    case Light => "light"
    case Dark => "dark"
  }

  /** The initial theme: a stored "dark" or "light" is adopted; anything
      else, or nothing stored, gives the dark theme. */
  function InitialTheme(stored: Option<string>): (t: Theme)
    ensures stored == Some("light") <==> t == Light
  {
    if stored == Some("dark") then Dark
    else if stored == Some("light") then Light
    else Dark
  }

  /** Reading back what was stored gives the theme that was stored. */
  lemma StoredRoundTrip(t: Theme)
    ensures InitialTheme(Some(StoredName(t))) == t
  {
  }

  /** `toggleTheme`. */
  function Toggle(t: Theme): (r: Theme)
    ensures r != t
  {
    if t == Dark then Light else Dark
  }

  /** Toggling twice restores the theme. */
  lemma ToggleTwice(t: Theme)
    ensures Toggle(Toggle(t)) == t
  {
  }

  predicate IsDark(t: Theme)
  {
    t == Dark
  }

  /** The document's state after the theme effect runs: whether the root
      element carries the "dark" class, and what is stored. */
  datatype Document = Document(darkClass: bool, stored: Option<string>)

  function ApplyTheme(doc: Document, t: Theme): (r: Document)
    ensures r.darkClass <==> IsDark(t)
    ensures r.stored.Some? && InitialTheme(r.stored) == t
  {
    Document(t == Dark, Some(StoredName(t)))
  }
}
