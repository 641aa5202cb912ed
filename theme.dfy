/**
 * The colour-theme state of `src/contexts/ThemeContext.jsx`: a mode ("light", "dark" or
 * "auto") kept in local storage, and the theme it resolves to. Whether the system prefers a
 * dark scheme (the `prefers-color-scheme` media query) is a parameter.
 */
module Theme {
  import opened Wrappers

  datatype ThemeName = LightTheme | DarkTheme

  /** The modes the provider accepts. */
  predicate IsMode(m: string) {
    m == "light" || m == "dark" || m == "auto"
  }

  /** The first mode: the saved one when it is a known mode, otherwise "auto". */
  function InitialMode(saved: Option<string>): (r: string)
    ensures IsMode(r)
    ensures saved.Some? && IsMode(saved.value) ==> r == saved.value
    ensures !(saved.Some? && IsMode(saved.value)) ==> r == "auto"
  {
    if saved.Some? && saved.value != "" && IsMode(saved.value) then saved.value else "auto"
  }

  /** `toggleTheme`: light, then dark, then auto, then light again; anything else goes to light. */
  function NextMode(m: string): (r: string)
    ensures IsMode(r)
  {
    if m == "light" then "dark" else if m == "dark" then "auto" else "light"
  }

  /** Three toggles come back to the mode they started from, and no fewer do. */
  lemma ToggleCycle(m: string)
    requires IsMode(m)
    ensures NextMode(NextMode(NextMode(m))) == m
    ensures NextMode(m) != m && NextMode(NextMode(m)) != m
  {
  }

  /** The theme a mode shows: "auto" follows the system, "dark" is dark, anything else light. */
  function Resolve(mode: string, prefersDark: bool): (r: ThemeName)
    ensures r == DarkTheme <==> (mode == "dark" || (mode == "auto" && prefersDark))
  {
    if mode == "auto" then (if prefersDark then DarkTheme else LightTheme)
    else if mode == "dark" then DarkTheme else LightTheme
  }

  /** The provider's state, with the stored copy of the mode. */
  class ThemeState {
    var mode: string
    var current: ThemeName
    var stored: Option<string>

    /** The mode is a known one and is what local storage holds. */
    predicate Valid()
      reads this
    {
      IsMode(mode) && stored == Some(mode)
    }

    /** Mounting the provider: the initial mode, its theme, and the mode saved back. */
    constructor (saved: Option<string>, prefersDark: bool)
      ensures Valid()
      ensures mode == InitialMode(saved) && current == Resolve(mode, prefersDark)
    {
      mode := InitialMode(saved);
      current := Resolve(InitialMode(saved), prefersDark);
      stored := Some(InitialMode(saved));
    }

    /** `isDark`. */
    predicate IsDark()
      reads this
    {
      current == DarkTheme
    }

    /** `isLight`. */
    predicate IsLight()
      reads this
    {
      current == LightTheme
    }

    /** `isAuto`. */
    predicate IsAuto()
      reads this
    {
      mode == "auto"
    }

    /** `toggleTheme()`, with the effects that resolve and save the new mode. */
    method Toggle(prefersDark: bool)
      requires Valid()
      modifies this
      ensures Valid()
      ensures mode == NextMode(old(mode)) && current == Resolve(mode, prefersDark)
    {
      mode := NextMode(mode);
      current := Resolve(mode, prefersDark);
      stored := Some(mode);
    }

    /** `setTheme(m)`: only a known mode is taken; anything else changes nothing. */
    method SetTheme(m: string, prefersDark: bool)
      requires Valid()
      modifies this
      ensures Valid()
      ensures IsMode(m) ==> mode == m && current == Resolve(m, prefersDark)
      ensures !IsMode(m) ==> mode == old(mode) && current == old(current) && stored == old(stored)
    {
      if IsMode(m) {
        mode := m;
        current := Resolve(m, prefersDark);
        stored := Some(m);
      }
    }

    /** The system preference changed: only the "auto" mode listens. */
    method SystemChange(prefersDark: bool)
      requires Valid()
      modifies this
      ensures Valid() && mode == old(mode) && stored == old(stored)
      ensures mode == "auto" ==> current == Resolve(mode, prefersDark)
      ensures mode != "auto" ==> current == old(current)
    {
      if mode == "auto" {
        current := Resolve(mode, prefersDark);
      }
    }
  }

  /** Reloading reads back the saved mode unchanged. */
  lemma ReloadKeepsMode(mode: string)
    requires IsMode(mode)
    ensures InitialMode(Some(mode)) == mode
  {
  }
}
