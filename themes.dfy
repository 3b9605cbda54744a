/** The theme value that the theme provider hands to both components.
    It is `undefined` until the provider has resolved it, and otherwise any
    string ("dark", "light", "system", ...). */
module Themes {
  import opened Wrappers

  type Theme = Option<string>

  const Dark: Theme := Some("dark")
  const Light: Theme := Some("light")

  /** The test `theme === "dark"` that both components use to choose between
      their two palettes. */
  predicate IsDark(theme: Theme) {
    theme == Dark
  }

  /** The theme buttons: "dark" becomes "light", and every other value,
      undefined included, becomes "dark". */
  function Toggle(theme: Theme): (t: Theme)
    ensures t == Dark || t == Light
    ensures IsDark(t) <==> !IsDark(theme)
  {
    if IsDark(theme) then Light else Dark
  }

  /** Toggling twice is the identity exactly on the two values a toggle can
      produce; any other value is normalised to "light" by two toggles. */
  lemma ToggleTwice(theme: Theme)
    ensures Toggle(Toggle(theme)) == theme <==> theme == Dark || theme == Light
    ensures theme != Dark ==> Toggle(Toggle(theme)) == Light
  {
  }
}
