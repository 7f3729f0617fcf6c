/** The theme store (`src/store/useThemeStore.ts`): a mode chosen by the user, the
    colour scheme the operating system reports, and the derived `isDark`/`colors`
    that every action recomputes with one rule. */
module ThemeStore {

  datatype ThemeMode = Light | Dark | System

  /** React Native's `ColorSchemeName`: "light", "dark", or null/undefined when the
      platform does not say. */
  datatype ColorScheme = LightScheme | DarkScheme | NoScheme

  datatype Palette = LightColors | DarkColors

  /** `mode === "dark" || (mode === "system" && systemTheme === "dark")`. */
  function IsDarkFor(mode: ThemeMode, systemTheme: ColorScheme): (dark: bool)
    ensures mode == Light ==> !dark
    ensures mode == Dark ==> dark
    ensures mode == System ==> (dark <==> systemTheme == DarkScheme)
  {
    mode == Dark || (mode == System && systemTheme == DarkScheme)
  }

  /** `isDark ? darkColors : lightColors`. */
  function PaletteFor(isDark: bool): (palette: Palette)
    ensures (palette == DarkColors) == isDark
  {
    if isDark then DarkColors else LightColors
  }

  /** The mode `toggleTheme` passes to `setMode`: light becomes dark, anything else
      (dark, and also system) becomes light. */
  function ToggledMode(mode: ThemeMode): (next: ThemeMode)
    ensures next != System
    ensures mode != System ==> next != mode
    ensures next == Light <==> mode != Light
  {
    if mode == Light then Dark else Light
  }

  /** Outside system mode `toggleTheme` always flips `isDark`. */
  lemma ToggleThemeFlipsExplicitMode(mode: ThemeMode, systemTheme: ColorScheme)
    requires mode != System
    ensures IsDarkFor(ToggledMode(mode), systemTheme) == !IsDarkFor(mode, systemTheme)
  {
  }

  /** In system mode with a light system scheme, `toggleTheme` picks light and so does
      not change `isDark`: the store's toggle is not the toggle button's rule. */
  lemma ToggleThemeFromLightSystemKeepsLight()
    ensures !IsDarkFor(System, LightScheme)
    ensures !IsDarkFor(ToggledMode(System), LightScheme)
  {
  }

  class ThemeState {
    var mode: ThemeMode
    var isDark: bool
    var colors: Palette
    var systemTheme: ColorScheme

    /** `isDark` follows the mode and the system scheme, and the palette follows `isDark`. */
    ghost predicate Valid()
      reads this
    {
      isDark == IsDarkFor(mode, systemTheme) && colors == PaletteFor(isDark)
    }

    constructor ()
      ensures Valid()
      ensures mode == System && !isDark && colors == LightColors && systemTheme == LightScheme
    {
      mode, isDark, colors, systemTheme := System, false, LightColors, LightScheme;
    }

    /** `setMode`: stores the mode and recomputes `isDark` and `colors`; the recorded
        system scheme is untouched. Establishes the invariant from any state. */
    method SetMode(newMode: ThemeMode)
      modifies this
      ensures Valid()
      ensures mode == newMode && systemTheme == old(systemTheme)
    {
      var dark := IsDarkFor(newMode, systemTheme);
      mode, isDark, colors := newMode, dark, PaletteFor(dark);
    }

    method ToggleTheme()
      modifies this
      ensures Valid()
      ensures mode == ToggledMode(old(mode)) && systemTheme == old(systemTheme)
      ensures old(mode) != System ==> isDark == !IsDarkFor(old(mode), systemTheme)
    {
      SetMode(ToggledMode(mode));
    }

    /** `setSystemTheme`: records the platform's scheme and recomputes `isDark` and
        `colors` for the unchanged mode. */
    method SetSystemTheme(theme: ColorScheme)
      modifies this
      ensures Valid()
      ensures systemTheme == theme && mode == old(mode)
    {
      var dark := IsDarkFor(mode, theme);
      systemTheme, isDark, colors := theme, dark, PaletteFor(dark);
    }
  }
}
