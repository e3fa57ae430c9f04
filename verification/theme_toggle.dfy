/** The light/dark theme switch: component state `isDarkMode` and `mounted`,
    kept in step with the stored `theme` entry and the `dark` class on the
    document element. The inline start-up script in the page layout applies
    the theme before the component mounts, with its own rule. */
module ThemeToggle {
  import opened Util

  /** The component together with the browser state it writes. */
  class ThemeToggle {
    var isDarkMode: bool
    var mounted: bool
    /** `localStorage.getItem('theme')`; `None` when nothing is stored. */
    var storedTheme: Option<string>
    /** Whether `document.documentElement.classList` contains `dark`. */
    var darkClass: bool

    /** The first render: `useState(false)` twice; the browser state is whatever it was. */
    constructor (stored: Option<string>, darkClassPresent: bool)
      ensures !isDarkMode && !mounted
      ensures storedTheme == stored && darkClass == darkClassPresent
    {
      isDarkMode := false;
      mounted := false;
      storedTheme := stored;
      darkClass := darkClassPresent;
    }

    /** The component renders nothing until it has mounted. */
    predicate RendersNothing()
      reads this
    {
      !mounted
    }

    /** The mount effect: dark mode is on iff the saved theme is `dark`, or
        nothing (or the empty string) is saved and the system prefers dark.
        The stored value itself is left alone. */
    method Mount(systemPrefersDark: bool)
      modifies this
      ensures mounted && !RendersNothing()
      ensures isDarkMode == ShouldUseDarkMode(old(storedTheme), systemPrefersDark)
      ensures darkClass == isDarkMode
      ensures storedTheme == old(storedTheme)
    {
      mounted := true;
      var shouldUseDarkMode := ShouldUseDarkMode(storedTheme, systemPrefersDark);
      if shouldUseDarkMode {
        darkClass := true;
        isDarkMode := true;
      } else {
        darkClass := false;
        isDarkMode := false;
      }
    }

    /** `toggleTheme`: flips the mode and writes the new mode to the class
        list and to storage. */
    method Toggle()
      modifies this
      ensures isDarkMode == !old(isDarkMode)
      ensures darkClass == isDarkMode
      ensures storedTheme == Some(ThemeName(isDarkMode))
      ensures mounted == old(mounted)
    {
      if isDarkMode {
        darkClass := false;
        storedTheme := Some("light");
        isDarkMode := false;
      } else {
        darkClass := true;
        storedTheme := Some("dark");
        isDarkMode := true;
      }
    }
  }

  /** The string stored for each mode. */
  function ThemeName(dark: bool): string {
    if dark then "dark" else "light"
  }

  /** `savedTheme === 'dark' || (!savedTheme && systemPreference)` */
  function ShouldUseDarkMode(saved: Option<string>, systemPrefersDark: bool): bool {
    saved == Some("dark") || (!Truthy(saved) && systemPrefersDark)
  }

  /** What the layout's inline script decides: the theme string it applies
      (any stored non-empty value wins, else the system preference) and
      whether it adds the `dark` class (only for the string `dark`). */
  datatype ScriptTheme = ScriptTheme(theme: string, darkClass: bool)

  function InlineScriptTheme(saved: Option<string>, systemPrefersDark: bool): ScriptTheme {
    var theme := if Truthy(saved) then saved.value else if systemPrefersDark then "dark" else "light";
    ScriptTheme(theme, theme == "dark")
  }

  /** Reading the value back after a toggle gives the new mode: storage and
      class agree with `isDarkMode` on the next mount. */
  lemma StoredThemeRoundTrip(dark: bool, systemPrefersDark: bool)
    ensures ShouldUseDarkMode(Some(ThemeName(dark)), systemPrefersDark) == dark
  {
  }

  /** Although the two rules are written differently, the inline script and
      the mount effect always agree on the `dark` class, for every stored
      value, including values other than `dark` and `light` and the empty
      string. They differ only in the `data-theme` string, which is the raw
      stored value for the script. */
  lemma ScriptAgreesWithMount(saved: Option<string>, systemPrefersDark: bool)
    ensures InlineScriptTheme(saved, systemPrefersDark).darkClass == ShouldUseDarkMode(saved, systemPrefersDark)
    ensures Truthy(saved) ==> InlineScriptTheme(saved, systemPrefersDark).theme == saved.value
  {
  }

  /** Toggling twice restores the mode, the class and (when the first mode
      had been stored already) the stored value. */
  method ToggleTwice(t: ThemeToggle)
    modifies t
    ensures t.isDarkMode == old(t.isDarkMode)
    ensures t.darkClass == t.isDarkMode
    ensures t.storedTheme == Some(ThemeName(old(t.isDarkMode)))
  {
    t.Toggle();
    t.Toggle();
  }
}
