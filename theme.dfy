/** The theme provider: a preference among `system`, `light` and `dark`,
    cycled by `toggleTheme`, applied to the document root as the `dark`
    class and the `theme-color` meta tag, and persisted in local storage
    under the key `theme`. */
module Theme {
  import opened Wrappers

  const System := "system"
  const Light := "light"
  const Dark := "dark"

  /** Meta `theme-color` content while dark mode is applied, and otherwise. */
  const DarkThemeColor := "#000000"
  const LightThemeColor := "#F2F2F7"

  predicate IsKnownTheme(theme: string)
  {
    theme == System || theme == Light || theme == Dark
  }

  /** The theme `toggleTheme` switches to. Any value other than `system`
      and `light`, including an unrecognised stored string, leads to `system`. */
  function NextTheme(theme: string): (next: string)
    ensures IsKnownTheme(next) && next != theme
    ensures next == Light <==> theme == System
    ensures next == Dark <==> theme == Light
  {
    if theme == System then Light else if theme == Light then Dark else System
  }

  /** Three toggles bring any of the three themes back to where it started. */
  lemma ToggleCycle(theme: string)
    requires IsKnownTheme(theme)
    ensures NextTheme(NextTheme(NextTheme(theme))) == theme
  {
  }

  /** Whether `applyTheme` puts the `dark` class on the root element: always
      under `dark`, under `system` exactly when the OS prefers dark, and never
      under `light` or an unrecognised value. */
  function AppliesDark(theme: string, prefersDark: bool): (dark: bool)
    ensures theme == Dark ==> dark
    ensures theme == System ==> (dark <==> prefersDark)
    ensures theme != Dark && theme != System ==> !dark
  {
    theme == Dark || (theme == System && prefersDark)
  }

  /** The meta `theme-color` content `applyTheme` writes. */
  function ThemeColor(dark: bool): (color: string)
    ensures color == DarkThemeColor <==> dark
    ensures color == LightThemeColor <==> !dark
  {
    if dark then DarkThemeColor else LightThemeColor
  }

  /** The OS colour-scheme preference matters only to the `system` theme,
      which is why the change listener re-applies only in that case. */
  lemma PreferenceMattersOnlyForSystem(theme: string, prefersDark: bool, prefersDark': bool)
    requires theme != System
    ensures AppliesDark(theme, prefersDark) == AppliesDark(theme, prefersDark')
  {
  }

  /** `localStorage.getItem('theme') || 'system'`: a missing or empty stored
      value falls back to `system`, any other stored string is kept as is. */
  function InitialTheme(stored: Option<string>): (theme: string)
    ensures stored.Some? && stored.value != "" ==> theme == stored.value
    ensures stored.None? || stored.value == "" ==> theme == System
    ensures theme != ""
  {
    match stored
    case Some(s) => if s != "" then s else System
    case None => System
  }

  class ThemeProvider {
    /** The React state `theme`. */
    var theme: string
    /** The local-storage entry `theme`. */
    var stored: Option<string>
    /** `matchMedia('(prefers-color-scheme: dark)').matches`, set by the browser. */
    var prefersDark: bool
    /** Whether the root element's class list holds `dark`. */
    var darkClass: bool
    /** The content of `meta[name="theme-color"]`; `None` when the document has no such element. */
    var metaColor: Option<string>

    /** What every run of the effect leaves behind. */
    ghost predicate Valid()
      reads this
    {
      && darkClass == AppliesDark(theme, prefersDark)
      && (metaColor.Some? ==> metaColor.value == ThemeColor(darkClass))
      && stored == Some(theme)
    }

    /** Mounting: the initial state is read from storage, then the effect runs. */
    constructor (storedAtLoad: Option<string>, prefersDarkAtLoad: bool, metaAtLoad: Option<string>)
      ensures Valid()
      ensures theme == InitialTheme(storedAtLoad) && prefersDark == prefersDarkAtLoad
      ensures metaColor.Some? == metaAtLoad.Some?
    {
      theme := InitialTheme(storedAtLoad);
      stored := storedAtLoad;
      prefersDark := prefersDarkAtLoad;
      darkClass := false;
      metaColor := metaAtLoad;
      new;
      RunEffect();
    }

    /** `applyTheme`: sets or clears the `dark` class and writes the meta colour when the tag exists. */
    method ApplyTheme()
      modifies this`darkClass, this`metaColor
      ensures darkClass == AppliesDark(theme, prefersDark)
      ensures metaColor == if old(metaColor).Some? then Some(ThemeColor(darkClass)) else None
    {
      if AppliesDark(theme, prefersDark) {
        darkClass := true;
        if metaColor.Some? { metaColor := Some(DarkThemeColor); }
      } else {
        darkClass := false;
        if metaColor.Some? { metaColor := Some(LightThemeColor); }
      }
    }

    /** The effect that runs on mount and on every change of `theme`: apply, then persist. */
    method RunEffect()
      modifies this`darkClass, this`metaColor, this`stored
      ensures Valid()
      ensures metaColor.Some? == old(metaColor).Some?
    {
      ApplyTheme();
      stored := Some(theme);
    }

    /** `toggleTheme`; the new value always differs, so the effect re-runs. */
    method ToggleTheme()
      requires Valid()
      modifies this
      ensures Valid()
      ensures theme == NextTheme(old(theme)) && prefersDark == old(prefersDark)
      ensures metaColor.Some? == old(metaColor).Some?
    {
      theme := NextTheme(theme);
      RunEffect();
    }

    /** `setTheme`, also handed out by the context; React skips the effect when the value is unchanged. */
    method SetTheme(newTheme: string)
      requires Valid()
      modifies this
      ensures Valid()
      ensures theme == newTheme && prefersDark == old(prefersDark)
      ensures metaColor.Some? == old(metaColor).Some?
      ensures newTheme == old(theme) ==> darkClass == old(darkClass) && metaColor == old(metaColor)
    {
      if newTheme != theme {
        theme := newTheme;
        RunEffect();
      }
    }

    /** The `change` listener on the media query: it re-applies only under `system`. */
    method PreferenceChanged(matches: bool)
      requires Valid()
      modifies this
      ensures Valid()
      ensures theme == old(theme) && stored == old(stored) && prefersDark == matches
      ensures metaColor.Some? == old(metaColor).Some?
      ensures old(theme) != System ==> darkClass == old(darkClass) && metaColor == old(metaColor)
    {
      prefersDark := matches;
      if theme == System {
        ApplyTheme();
      }
    }
  }
}
