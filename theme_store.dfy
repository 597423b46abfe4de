/** The persisted theme store of the single-page application: the theme, and the `light`
    class on the document element that the actions keep in step with it. */
module ThemeStore {
  import opened Wrappers

  datatype Theme = Dark | Light

  /** The store's theme and whether the document element carries the `light` class. */
  datatype ThemeState = ThemeState(theme: Theme, lightClass: bool)

  /** The document shows the store's theme. */
  predicate Synced(s: ThemeState) {
    s.lightClass <==> s.theme == Light
  }

  function Flip(t: Theme): (r: Theme)
    ensures r != t
  {
    if t == Dark then Light else Dark
  }

  /** `toggleTheme`. */
  function Toggled(s: ThemeState): (r: ThemeState)
    ensures r.theme != s.theme && Synced(r)
  {
    var t := Flip(s.theme);
    ThemeState(t, t == Light)
  }

  /** `setTheme(t)`. */
  function WithTheme(s: ThemeState, t: Theme): (r: ThemeState)
    ensures r.theme == t && Synced(r)
  {
    ThemeState(t, t == Light)
  }

  /** The rehydration callback, given the theme of the state it receives: the class follows
      that theme. With empty storage the callback receives the current state, so its theme;
      `None` is the callback receiving no state, as when hydration fails. */
  function Rehydrated(s: ThemeState, restored: Option<Theme>): (r: ThemeState)
    ensures restored.Some? ==> r.theme == restored.value && Synced(r)
    ensures restored.None? ==> r == s
  {
    if restored.Some? then ThemeState(restored.value, restored.value == Light) else s
  }

  /** Two toggles give back the theme, and the whole state when it was in step. */
  lemma ToggleTwice(s: ThemeState)
    ensures Toggled(Toggled(s)).theme == s.theme
    ensures Synced(s) ==> Toggled(Toggled(s)) == s
  {
  }

  /** Setting the theme twice is setting it once, and the result does not depend on the
      state before. */
  lemma SetThemeIdempotent(s: ThemeState, u: ThemeState, t: Theme)
    ensures WithTheme(WithTheme(s, t), t) == WithTheme(s, t)
    ensures WithTheme(s, t) == WithTheme(u, t)
  {
  }

  /** A toggle is setting the other theme. */
  lemma ToggleIsSet(s: ThemeState)
    ensures Toggled(s) == WithTheme(s, Flip(s.theme))
  {
  }

  class ThemeStoreObject {
    var theme: Theme
    var lightClass: bool

    function State(): ThemeState
      reads this
    {
      ThemeState(theme, lightClass)
    }

    /** The store starts dark; creating it does not touch the document. */
    constructor(lightClass: bool)
      ensures theme == Dark && this.lightClass == lightClass
    {
      theme := Dark;
      this.lightClass := lightClass;
    }

    method ToggleTheme()
      modifies this
      ensures State() == Toggled(old(State()))
    {
      var newTheme := if theme == Dark then Light else Dark;
      lightClass := newTheme == Light;
      theme := newTheme;
    }

    method SetTheme(t: Theme)
      modifies this
      ensures State() == WithTheme(old(State()), t)
    {
      lightClass := t == Light;
      theme := t;
    }

    method Rehydrate(restored: Option<Theme>)
      modifies this
      ensures State() == Rehydrated(old(State()), restored)
    {
      if restored.Some? {
        theme := restored.value;
        lightClass := theme == Light;
      }
    }
  }
}
