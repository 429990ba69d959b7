/** The theme preference of useDarkMode in src/App.jsx. The stored value under
    the key "theme" and the system colour-scheme preference are inputs; the
    model writes the stored value back as the hook's effect does. */
module DarkMode {

  datatype Option<T> = None | Some(value: T)

  /** What the effect writes for a theme. */
  function Encode(dark: bool): (r: string)
    ensures r != ""
    ensures r == "dark" <==> dark
    ensures !dark ==> r == "light"
  {
    if dark then "dark" else "light"
  }

  /** The initial state of lines 109-113: a truthy (non-empty) stored string decides,
      otherwise the system preference (false where matchMedia is missing). */
  function InitialDark(stored: Option<string>, systemDark: bool): (r: bool)
    ensures stored == Some("dark") ==> r
    ensures r ==> stored == Some("dark") || (systemDark && (stored == None || stored == Some("")))
  {
    if stored.Some? && stored.value != "" then stored.value == "dark" else systemDark
  }

  /** Re-initialising from what was written gives back the same theme, whatever the
      system preference. */
  lemma RoundTrip(dark: bool, systemDark: bool)
    ensures InitialDark(Some(Encode(dark)), systemDark) == dark
  {
  }

  /** Any other non-empty stored string means light. */
  lemma OtherValueIsLight(pref: string, systemDark: bool)
    requires pref != "" && pref != "dark"
    ensures !InitialDark(Some(pref), systemDark)
  {
  }

  /** No stored preference, or an empty one, defers to the system. */
  lemma NoPreferenceFollowsSystem(stored: Option<string>, systemDark: bool)
    requires stored == None || stored == Some("")
    ensures InitialDark(stored, systemDark) == systemDark
  {
  }

  /** The hook's state with the two outputs its effect writes: the stored value and
      the `dark` class on the document root. */
  class Theme {
    var dark: bool
    var stored: Option<string>
    var rootDark: bool

    /** After every effect run the outputs agree with the state. */
    ghost predicate Valid()
      reads this
    {
      stored == Some(Encode(dark)) && rootDark == dark
    }

    /** Mounting: the lazy initial state, then the effect's first run. */
    constructor (stored: Option<string>, systemDark: bool)
      ensures Valid() && dark == InitialDark(stored, systemDark)
    {
      dark := InitialDark(stored, systemDark);
      this.stored := stored;
      rootDark := false;
      new;
      Persist();
    }

    /** The effect of lines 114-123. */
    method Persist()
      modifies this
      ensures Valid() && dark == old(dark)
    {
      if dark {
        rootDark := true;
        stored := Some("dark");
      } else {
        rootDark := false;
        stored := Some("light");
      }
    }

    /** The toggle button (line 584): flip the theme; the effect persists it, and a
        reload from the stored value restores it. */
    method Toggle()
      requires Valid()
      modifies this
      ensures Valid() && dark == !old(dark)
      ensures forall systemDark :: InitialDark(stored, systemDark) == dark
    {
      dark := !dark;
      Persist();
    }
  }
}
