/**
 * The colour theme (context/ThemeContext.tsx): light or dark, chosen from the
 * device scheme, replaced by a valid saved value, toggled and saved under
 * the storage key "theme".
 */
module ThemeContext {
  import opened Wrappers

  datatype Theme = Light | Dark

  const StorageKey := "theme"

  /** How a theme is written to storage. */
  function ThemeName(t: Theme): (s: string)
    ensures s == "light" || s == "dark"
  {
    match t
    case Light => "light"
    case Dark => "dark"
  }

  /** A stored value that names a theme; anything else (including nothing) is ignored. */
  function ParseTheme(saved: Option<string>): (r: Option<Theme>)
    ensures r.Some? <==> saved == Some("dark") || saved == Some("light")
  {
    if saved == Some("dark") then Some(Dark)
    else if saved == Some("light") then Some(Light)
    else None
  }

  /** Saving and reading back a theme gives that theme, and only a saved theme's own name reads back as it. */
  lemma ParseThemeName(t: Theme, saved: Option<string>)
    ensures ParseTheme(Some(ThemeName(t))) == Some(t)
    ensures ParseTheme(saved) == Some(t) ==> saved == Some(ThemeName(t))
  {
  }

  /** The theme before storage is read: dark exactly for a dark device scheme. */
  function InitialTheme(defaultScheme: Option<string>): (t: Theme)
    ensures t == Dark <==> defaultScheme == Some("dark")
  {
    if defaultScheme == Some("dark") then Dark else Light
  }

  function Toggled(t: Theme): (r: Theme)
    ensures r != t
  {
    match t
    case Dark => Light
    case Light => Dark
  }

  /** Two toggles restore the theme. */
  lemma ToggleTwice(t: Theme)
    ensures Toggled(Toggled(t)) == t
  {
  }

  class ThemeProvider {
    var theme: Theme
    /** The device's persistent key-value storage. */
    var store: map<string, string>

    constructor(defaultScheme: Option<string>, store: map<string, string>)
      ensures theme == InitialTheme(defaultScheme) && this.store == store
    {
      theme := InitialTheme(defaultScheme);
      this.store := store;
    }

    /** The value saved under "theme", if any. */
    function Saved(): Option<string>
      reads this
    {
      if StorageKey in store then Some(store[StorageKey]) else None
    }

    /** The load effect: a saved "dark" or "light" is applied, any other value leaves the theme. */
    method LoadSaved()
      modifies this`theme
      ensures ParseTheme(Saved()).Some? ==> theme == ParseTheme(Saved()).value
      ensures ParseTheme(Saved()).None? ==> theme == old(theme)
    {
      var parsed := ParseTheme(Saved());
      if parsed.Some? {
        theme := parsed.value;
      }
    }

    /** `toggleTheme`: the other theme, saved under "theme". */
    method ToggleTheme()
      modifies this
      ensures theme == Toggled(old(theme))
      ensures store == old(store)[StorageKey := ThemeName(theme)]
      ensures ParseTheme(Saved()) == Some(theme)
    {
      theme := Toggled(theme);
      store := store[StorageKey := ThemeName(theme)];
    }
  }

  /** A toggled theme survives a restart: a new provider that loads storage shows it, whatever the device scheme. */
  method ToggleThenRestart(p: ThemeProvider, defaultScheme: Option<string>) returns (shown: Theme)
    modifies p
    ensures shown == p.theme && shown == Toggled(old(p.theme))
  {
    p.ToggleTheme();
    var q := new ThemeProvider(defaultScheme, p.store);
    q.LoadSaved();
    shown := q.theme;
  }
}
