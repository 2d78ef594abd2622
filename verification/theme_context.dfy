/** The colour theme: read from local storage with "light" as default, and a
    toggle that flips between "light" and "dark" and persists the new value.
    The 50 ms fade delay and the document attribute are presentation. */
module ThemeContext {
  import opened Entities

  const Light := "light"
  const Dark := "dark"

  datatype ThemeState = ThemeState(theme: string, stored: Option<string>)

  /** `localStorage.getItem("theme") || "light"`. */
  function InitialTheme(stored: Option<string>): (t: string)
    ensures stored.Some? && stored.value != "" ==> t == stored.value
    ensures stored.None? || stored.value == "" ==> t == Light
    ensures t != ""
  {
    if stored.Some? && stored.value != "" then stored.value else Light
  }

  function Initial(stored: Option<string>): (s: ThemeState)
    ensures s.stored == stored && s.theme == InitialTheme(stored)
  {
    ThemeState(InitialTheme(stored), stored)
  }

  /** The value `toggleTheme` computes: "light" goes to "dark", anything else
      (including an unknown stored value) goes to "light". */
  function Flip(t: string): (u: string)
    ensures u == Light || u == Dark
    ensures u == Dark <==> t == Light
  {
    if t == Light then Dark else Light
  }

  /** `toggleTheme`: set the flipped theme and write it to storage. */
  function Toggle(s: ThemeState): (r: ThemeState)
    ensures r.stored == Some(r.theme)
    ensures r.theme == Flip(s.theme)
  {
    var t := Flip(s.theme);
    ThemeState(t, Some(t))
  }

  /** A reload shows the theme the last toggle chose: what the toggle
      persists is what the initial read returns. With nothing stored the
      page starts light. */
  lemma ReloadShowsToggledTheme(s: ThemeState)
    ensures Initial(Toggle(s).stored) == Toggle(s)
    ensures Initial(None).theme == Light
  {
  }

  /** On the two known themes the toggle is an involution. */
  lemma ToggleTwice(s: ThemeState)
    requires s.theme == Light || s.theme == Dark
    ensures Toggle(Toggle(s)).theme == s.theme
  {
  }

  /** An unknown theme value is normalised after one toggle, and from then on
      only the two known values occur. */
  lemma ToggleNormalises(s: ThemeState)
    ensures Toggle(s).theme == Light || Toggle(s).theme == Dark
    ensures Toggle(Toggle(Toggle(s))) == Toggle(s)
  {
  }
}
