/** The theme toggle component (`src/components/ThemeToggle.tsx`): which mode each
    button asks the store for, which buttons are highlighted, and the caption. */
module ThemeToggle {
  import opened ThemeStore

  const SystemThemeLabel: string := "تم سیستم"
  const LightModeLabel: string := "حالت روشن"
  const DarkModeLabel: string := "حالت تاریک"

  /** The mode `handleToggle` passes to `setMode`: in system mode the opposite of what
      is shown, otherwise the other explicit mode. */
  function HandleToggleMode(mode: ThemeMode, isDark: bool): (next: ThemeMode)
    ensures next != System
    ensures mode == System ==> (next == Dark <==> !isDark)
    ensures mode != System ==> next != mode
  {
    if mode == System then (if isDark then Light else Dark)
    else if mode == Light then Dark else Light
  }

  /** With the store's invariant in place, every press of the toggle flips `isDark`,
      whatever the mode and the system scheme. */
  lemma HandleToggleFlipsDark(mode: ThemeMode, isDark: bool, systemTheme: ColorScheme)
    requires isDark == IsDarkFor(mode, systemTheme)
    ensures IsDarkFor(HandleToggleMode(mode, isDark), systemTheme) == !isDark
  {
  }

  /** `handleToggle`, applied to the store. */
  method HandleToggle(theme: ThemeState)
    requires theme.Valid()
    modifies theme
    ensures theme.Valid()
    ensures theme.isDark == !old(theme.isDark)
    ensures theme.mode == HandleToggleMode(old(theme.mode), old(theme.isDark))
    ensures theme.systemTheme == old(theme.systemTheme)
  {
    var next := HandleToggleMode(theme.mode, theme.isDark);
    HandleToggleFlipsDark(theme.mode, theme.isDark, theme.systemTheme);
    theme.SetMode(next);
  }

  /** `handleSystemTheme`: always hands control back to the system scheme. */
  method HandleSystemTheme(theme: ThemeState)
    modifies theme
    ensures theme.Valid()
    ensures theme.mode == System && theme.systemTheme == old(theme.systemTheme)
    ensures theme.isDark == (theme.systemTheme == DarkScheme)
  {
    theme.SetMode(System);
  }

  datatype Highlights = Highlights(sun: bool, system: bool, moon: bool)

  /** Which of the three buttons (sun, phone, moon) is drawn highlighted. */
  function ButtonHighlights(mode: ThemeMode, isDark: bool): (h: Highlights)
    ensures h.sun != h.moon
    ensures h.system <==> mode == System
    ensures mode == Light ==> h.sun
    ensures mode == Dark ==> h.moon
    ensures mode == System ==> (h.moon <==> isDark)
  {
    Highlights(
      mode == Light || (mode == System && !isDark),
      mode == System,
      mode == Dark || (mode == System && isDark))
  }

  /** Under the store's invariant the moon is lit exactly when the dark palette is in use. */
  lemma MoonShowsDarkPalette(mode: ThemeMode, systemTheme: ColorScheme)
    ensures ButtonHighlights(mode, IsDarkFor(mode, systemTheme)).moon <==>
      PaletteFor(IsDarkFor(mode, systemTheme)) == DarkColors
  {
  }

  /** The caption: system, light, and dark for everything else; each mode has its own
      caption. */
  function ModeLabel(mode: ThemeMode): (caption: string)
    ensures (caption == SystemThemeLabel) == (mode == System)
    ensures (caption == LightModeLabel) == (mode == Light)
    ensures (caption == DarkModeLabel) == (mode == Dark)
  {
    match mode
    case System => SystemThemeLabel
    case Light => LightModeLabel
    case Dark => DarkModeLabel
  }
}
