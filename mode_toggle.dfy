/** The theme button (src/components/mode-toggle.tsx): each click moves to the next theme of a three-theme ring. */
module ModeToggle {
  import opened Wrappers
  import opened Seqs

  const Themes: seq<string> := ["system", "light", "dark"]

  /**
   * The theme `cycleTheme` sets: the successor of the current theme in the ring
   * system, light, dark. An unset theme counts as "system"; an unknown name has
   * index -1, so its successor is index 0, "system".
   */
  function NextTheme(theme: Option<string>): (r: string)
    ensures r in Themes
    ensures theme.None? ==> r == "light"
    ensures theme.Some? && theme.value !in Themes ==> r == "system"
    ensures theme == Some("system") ==> r == "light"
    ensures theme == Some("light") ==> r == "dark"
    ensures theme == Some("dark") ==> r == "system"
  {
    var current := IndexOf(Themes, theme.GetOr("system"));
    assert theme == Some("light") ==> current == 1 by {
      if theme == Some("light") { assert Themes[1] == "light" && "light" !in Themes[..1]; }
    }
    assert theme == Some("dark") ==> current == 2 by {
      if theme == Some("dark") { assert Themes[2] == "dark" && "dark" !in Themes[..2]; }
    }
    Themes[(current + 1) % |Themes|]
  }

  /** Three clicks from any of the three themes come back to it. */
  lemma ThreeClicksReturn(theme: string)
    requires theme in Themes
    ensures NextTheme(Some(NextTheme(Some(NextTheme(Some(theme)))))) == theme
  {
  }
}
