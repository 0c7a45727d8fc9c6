/** Theme of the preview page: the choice made on load from the synced
    setting, the locally stored toggle and the system colour scheme, and the
    toggle button. The colour-scheme query and the local store are inputs. */
module Theme {
  import opened Optional

  /** The toggle button shows a sun on a dark page and a moon otherwise. */
  datatype Icon = Sun | Moon

  function IconFor(theme: string): (i: Icon)
    ensures i == Sun <==> theme == "dark"
  {
    if theme == "dark" then Sun else Moon
  }

  /** The theme applied on load. `setting` is the synced setting (it defaults
      to "light" when unset), `prefersDark` the answer of the colour-scheme
      query, `stored` the locally stored theme. An empty setting falls back to
      the stored theme, and an empty stored theme to "light". */
  function ResolveTheme(setting: string, prefersDark: bool, stored: Option<string>): (r: string)
    ensures r != ""
    ensures setting == "system" ==> r == (if prefersDark then "dark" else "light")
    ensures setting != "system" && setting != "" ==> r == setting
    ensures setting == "" ==> r == (if stored.Some? && stored.value != "" then stored.value else "light")
  {
    var fallback := if stored.Some? && stored.value != "" then stored.value else "light";
    if setting == "system" then (if prefersDark then "dark" else "light")
    else if setting != "" then setting
    else fallback
  }

  /** The toggle: "light" becomes "dark", anything else becomes "light",
      including a theme not yet set because the click came before the
      settings callback had run. */
  function Toggle(current: string): (r: string)
    ensures r == "light" || r == "dark"
    ensures current == "light" ==> r == "dark"
    ensures current != "light" ==> r == "light"
  {
    if current == "light" then "dark" else "light"
  }

  /** On the two real themes the toggle is an involution. */
  lemma ToggleTwiceRestores(current: string)
    requires current == "light" || current == "dark"
    ensures Toggle(Toggle(current)) == current
  {
  }

  /** The toggle only writes the local store: after reopening, it survives
      only when the synced setting is empty; a synced theme wins. */
  lemma ToggleSurvivesOnlyLocally(current: string, setting: string, prefersDark: bool)
    ensures setting == "" ==> ResolveTheme(setting, prefersDark, Some(Toggle(current))) == Toggle(current)
    ensures setting != "" && setting != "system" ==> ResolveTheme(setting, prefersDark, Some(Toggle(current))) == setting
  {
  }
}
