/**
 * The theme store of the theme hook (a preference, a dark-mode flag and the
 * current react-native-paper theme) and the choice of that paper theme: the
 * device's Material You palette when dynamic colours are on and the device
 * palette is not the stock one, the app's own palette otherwise, in its dark
 * or light variant according to the dark-mode flag alone.
 */
module ThemeSetup {
  import opened Opt

  /** `"light" | "dark" | "system"`. */
  datatype ThemePreference = LightPreference | DarkPreference | SystemPreference

  /** A colour scheme of the device's Material You theme; only `primary` is ever inspected. */
  datatype Scheme = Scheme(primary: string, otherColors: map<string, string>)

  /** The device-generated Material You theme (`useMaterial3Theme().theme`). */
  datatype Material3Theme = Material3Theme(light: Scheme, dark: Scheme)

  /** The primaries of the stock Material 3 theme, against which the device theme is compared. */
  datatype DefaultPrimaries = DefaultPrimaries(dark: string, light: string)

  /** A set of colours for a paper theme: the app's `Colors.light` / `Colors.dark`, or a device scheme. */
  datatype Palette = AppLight | AppDark | Device(scheme: Scheme)

  datatype PalettePair = PalettePair(light: Palette, dark: Palette)

  /** The theme a paper theme is merged from: MD3 and navigation, light or dark. */
  datatype Base = LightBase | DarkBase

  /** The store's `paperTheme`: `{}` until the hook first sets it, then a base with its colours. */
  datatype PaperTheme = EmptyPaperTheme | PaperTheme(base: Base, colors: Palette)

  const AppPalettes := PalettePair(AppLight, AppDark)

  /** `materialYouThemeOrMyTheme`: the app's own colours when the device theme is the stock one. */
  function MaterialYouThemeOrMyTheme(theme: Material3Theme, defaults: DefaultPrimaries): (r: PalettePair)
    ensures r == AppPalettes <==> theme.dark.primary == defaults.dark && theme.light.primary == defaults.light
    ensures r != AppPalettes ==> r == PalettePair(Device(theme.light), Device(theme.dark))
  {
    if theme.dark.primary == defaults.dark && theme.light.primary == defaults.light then
      AppPalettes
    else
      PalettePair(Device(theme.light), Device(theme.dark))
  }

  /** A device theme that matches the stock primary on one side only is used as it is. */
  lemma OneStockPrimaryIsNotEnough(theme: Material3Theme, defaults: DefaultPrimaries)
    requires (theme.dark.primary == defaults.dark) != (theme.light.primary == defaults.light)
    ensures MaterialYouThemeOrMyTheme(theme, defaults) == PalettePair(Device(theme.light), Device(theme.dark))
  {
  }

  /** The light and dark colours the hook's effect works with. */
  function SelectPalettes(dynamicColors: bool, device: Material3Theme, defaults: DefaultPrimaries): (r: PalettePair)
    ensures !dynamicColors ==> r == AppPalettes
    ensures dynamicColors ==> r == MaterialYouThemeOrMyTheme(device, defaults)
  {
    PalettePair(
      if dynamicColors then MaterialYouThemeOrMyTheme(device, defaults).light else AppLight,
      if dynamicColors then MaterialYouThemeOrMyTheme(device, defaults).dark else AppDark)
  }

  /** `isDarkMode ? darkBasedTheme : lightBasedTheme`. */
  function SelectPaperTheme(isDarkMode: bool, palettes: PalettePair): (p: PaperTheme)
    ensures p.PaperTheme?
    ensures p.base == DarkBase <==> isDarkMode
    ensures p.colors == (if isDarkMode then palettes.dark else palettes.light)
  {
    if isDarkMode then PaperTheme(DarkBase, palettes.dark) else PaperTheme(LightBase, palettes.light)
  }

  /** The paper theme the hook's effect stores. */
  function ChosenPaperTheme(isDarkMode: bool, dynamicColors: bool, device: Material3Theme, defaults: DefaultPrimaries): PaperTheme {
    SelectPaperTheme(isDarkMode, SelectPalettes(dynamicColors, device, defaults))
  }

  /** With dynamic colours off, the device theme plays no part: the app's own palette is used. */
  lemma StaticColorsIgnoreDevice(isDarkMode: bool, a: Material3Theme, b: Material3Theme, defaults: DefaultPrimaries)
    ensures ChosenPaperTheme(isDarkMode, false, a, defaults) == ChosenPaperTheme(isDarkMode, false, b, defaults)
    ensures ChosenPaperTheme(isDarkMode, false, a, defaults).colors == (if isDarkMode then AppDark else AppLight)
  {
  }

  /** The chosen theme is dark-based exactly when dark mode is on, and uses the colours for that side. */
  lemma DarkBasedIffDarkMode(isDarkMode: bool, dynamicColors: bool, device: Material3Theme, defaults: DefaultPrimaries)
    ensures ChosenPaperTheme(isDarkMode, dynamicColors, device, defaults).base == DarkBase <==> isDarkMode
    ensures ChosenPaperTheme(isDarkMode, dynamicColors, device, defaults).colors ==
      (if isDarkMode then SelectPalettes(dynamicColors, device, defaults).dark
       else SelectPalettes(dynamicColors, device, defaults).light)
  {
  }

  // ---------------------------------------------------------------------------
  // The store
  // ---------------------------------------------------------------------------

  datatype ThemeState = ThemeState(theme: ThemePreference, isDarkMode: bool, paperTheme: PaperTheme)

  /** The store as created: follow the system, not dark, no paper theme yet. */
  const InitialThemeState := ThemeState(SystemPreference, false, EmptyPaperTheme)

  /** `setTheme(theme)`. */
  function WithPreference(s: ThemeState, theme: ThemePreference): ThemeState {
    s.(theme := theme)
  }

  /** `toggleDarkMode()`. */
  function WithToggledDarkMode(s: ThemeState): ThemeState {
    s.(isDarkMode := !s.isDarkMode)
  }

  /** `updatePaperTheme(paperTheme)`. */
  function WithPaperTheme(s: ThemeState, p: PaperTheme): ThemeState {
    s.(paperTheme := p)
  }

  /** Toggling dark mode negates the flag alone, and twice is no change. */
  lemma ToggleDarkModeInvolution(s: ThemeState)
    ensures WithToggledDarkMode(s).isDarkMode == !s.isDarkMode
    ensures WithToggledDarkMode(s).theme == s.theme && WithToggledDarkMode(s).paperTheme == s.paperTheme
    ensures WithToggledDarkMode(WithToggledDarkMode(s)) == s
  {
  }

  /** `setTheme` touches the preference only and `updatePaperTheme` the paper theme only. */
  lemma SettersTouchOneField(s: ThemeState, theme: ThemePreference, p: PaperTheme)
    ensures WithPreference(s, theme).(theme := s.theme) == s
    ensures WithPaperTheme(s, p).(paperTheme := s.paperTheme) == s
    ensures WithPreference(s, theme).isDarkMode == s.isDarkMode
  {
  }

  /**
   * The preference never reaches the paper theme: whatever `setTheme` is
   * given, the theme the hook then chooses is the same.
   */
  lemma PreferenceDoesNotChoosePaperTheme(s: ThemeState, theme: ThemePreference, dynamicColors: bool, device: Material3Theme, defaults: DefaultPrimaries)
    ensures ChosenPaperTheme(WithPreference(s, theme).isDarkMode, dynamicColors, device, defaults)
         == ChosenPaperTheme(s.isDarkMode, dynamicColors, device, defaults)
  {
  }

  /** The theme store instance; its actions update fields in place. */
  class ThemeStore {
    var theme: ThemePreference
    var isDarkMode: bool
    var paperTheme: PaperTheme

    function State(): ThemeState
      reads this
    {
      ThemeState(theme, isDarkMode, paperTheme)
    }

    constructor ()
      ensures State() == InitialThemeState
    {
      theme := SystemPreference;
      isDarkMode := false;
      paperTheme := EmptyPaperTheme;
    }

    method SetTheme(t: ThemePreference)
      modifies this
      ensures State() == WithPreference(old(State()), t)
    {
      theme := t;
    }

    method ToggleDarkMode()
      modifies this
      ensures State() == WithToggledDarkMode(old(State()))
    {
      isDarkMode := !isDarkMode;
    }

    method UpdatePaperTheme(p: PaperTheme)
      modifies this
      ensures State() == WithPaperTheme(old(State()), p)
    {
      paperTheme := p;
    }
  }

  /** What `useThemeSetup` returns. */
  datatype ThemeSetupResult = ThemeSetupResult(paperTheme: PaperTheme, colorScheme: ThemePreference, isDarkMode: bool)

  /** `dynamicColors` when the caller passes none. */
  const DefaultDynamicColors := false

  /**
   * `useThemeSetup(dynamicColors)` once its effect has run: the chosen paper
   * theme is written to the store and handed back with the preference and
   * the dark-mode flag, none of which the effect changes.
   */
  method UseThemeSetup(store: ThemeStore, dynamicColors: Option<bool>, device: Material3Theme, defaults: DefaultPrimaries)
    returns (r: ThemeSetupResult)
    modifies store
    ensures store.State() == WithPaperTheme(old(store.State()),
      ChosenPaperTheme(old(store.isDarkMode), dynamicColors.GetOr(DefaultDynamicColors), device, defaults))
    ensures r == ThemeSetupResult(store.paperTheme, store.theme, store.isDarkMode)
  {
    var useDynamic := dynamicColors.GetOr(DefaultDynamicColors);
    var palettes := SelectPalettes(useDynamic, device, defaults);
    var chosen := if store.isDarkMode then PaperTheme(DarkBase, palettes.dark) else PaperTheme(LightBase, palettes.light);
    store.UpdatePaperTheme(chosen);
    r := ThemeSetupResult(store.paperTheme, store.theme, store.isDarkMode);
  }
}
