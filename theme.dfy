/** The light/dark theme switch: the `dark-theme` class on the page body,
    the persisted `theme` entry of the browser's key-value store (modelled
    as a string map) and the icon shown on the toggle button. */
module Theme {

  const ThemeKey := "theme"
  const DarkValue := "dark"
  const LightValue := "light"
  /** Shown while dark: offers the way back to light. */
  const SunIcon := "\U{2600}\U{FE0F}"
  /** Shown while light. */
  const MoonIcon := "\U{1F319}"

  datatype ThemeState = ThemeState(dark: bool, store: map<string, string>, button: string)

  function Icon(dark: bool): string {
    if dark then SunIcon else MoonIcon
  }

  /** The three mirrors of the theme agree: the stored value is `dark`
      while the dark class is on and `light` otherwise, and the icon is the
      sun while dark and the moon otherwise. */
  predicate Consistent(s: ThemeState) {
    ThemeKey in s.store
    && s.store[ThemeKey] == (if s.dark then DarkValue else LightValue)
    && s.button == Icon(s.dark)
  }

  /** `toggleTheme`: flip the class, persist the new theme, set the icon.
      Whatever state it starts from, it leaves the mirrors consistent and
      touches no other stored key. */
  function Toggle(s: ThemeState): (r: ThemeState)
    ensures r.dark == !s.dark
    ensures Consistent(r)
    ensures r.store.Keys == s.store.Keys + {ThemeKey}
    ensures forall k :: k in s.store && k != ThemeKey ==> r.store[k] == s.store[k]
  {
    if s.dark then ThemeState(false, s.store[ThemeKey := LightValue], MoonIcon)
    else ThemeState(true, s.store[ThemeKey := DarkValue], SunIcon)
  }

  /** The dark flag returns after two toggles; from a consistent state the
      whole state does, stored value and icon included. */
  lemma ToggleInvolution(s: ThemeState)
    ensures Toggle(Toggle(s)).dark == s.dark
    ensures Consistent(s) ==> Toggle(Toggle(s)) == s
  {
  }

  /** `initThemeToggle`: a stored `dark` turns the dark theme on and shows
      the sun; anything else (a missing key included) changes nothing. */
  function InitTheme(s: ThemeState): (r: ThemeState)
    ensures r.store == s.store
    ensures r.dark == (s.dark || (ThemeKey in s.store && s.store[ThemeKey] == DarkValue))
    ensures (ThemeKey in s.store && s.store[ThemeKey] == DarkValue) ==> r.button == SunIcon
    ensures !(ThemeKey in s.store && s.store[ThemeKey] == DarkValue) ==> r == s
  {
    if ThemeKey in s.store && s.store[ThemeKey] == DarkValue then s.(dark := true, button := SunIcon)
    else s
  }

  /** Running the init twice is running it once, and a consistent state
      is already what the init would make of it. */
  lemma InitThemeStable(s: ThemeState)
    ensures InitTheme(InitTheme(s)) == InitTheme(s)
    ensures Consistent(s) ==> InitTheme(s) == s
  {
  }

  /** The page as it loads: light, with the stored map and the button text
      of the document. */
  function Loaded(store: map<string, string>, button: string): ThemeState {
    ThemeState(false, store, button)
  }

  /** The theme survives a reload: loading a page over the store a
      consistent state left behind and running the init restores its theme,
      and its icon when that theme is dark. */
  lemma ReloadRestoresTheme(s: ThemeState, button: string)
    requires Consistent(s)
    ensures InitTheme(Loaded(s.store, button)).dark == s.dark
    ensures s.dark ==> InitTheme(Loaded(s.store, button)) == s
  {
  }

  class ThemeController {
    var dark: bool
    var store: map<string, string>
    var button: string

    function View(): ThemeState
      reads this
    {
      ThemeState(dark, store, button)
    }

    constructor (saved: map<string, string>, initialButton: string)
      ensures View() == Loaded(saved, initialButton)
    {
      dark := false;
      store := saved;
      button := initialButton;
    }

    method InitThemeToggle()
      modifies this
      ensures View() == InitTheme(old(View()))
    {
      if ThemeKey in store && store[ThemeKey] == DarkValue {
        dark := true;
        button := SunIcon;
      }
    }

    method ToggleTheme()
      modifies this
      ensures View() == Toggle(old(View()))
      ensures Consistent(View())
    {
      var isCurrentlyDark := dark;
      if isCurrentlyDark {
        dark := false;
        store := store[ThemeKey := LightValue];
        button := MoonIcon;
      } else {
        dark := true;
        store := store[ThemeKey := DarkValue];
        button := SunIcon;
      }
    }
  }
}
