/**
 * The persisted application settings (`useSettingsStore`) and the theme that
 * the screens display (`useThemeStore` in the same file): the stored theme if
 * the user picked one, else the device's colour scheme, else light.
 */
module AppSettings {
  import opened Opt

  /** `"light" | "dark"`; the nullable `Theme` of the store is `Option<Theme>`. */
  datatype Theme = Light | Dark

  /**
   * The settings record. `lastBackup` is a `Date`, kept as milliseconds since
   * the epoch.
   */
  datatype Settings = Settings(
    theme: Option<Theme>,
    localBackupPath: Option<string>,
    dynamicColors: bool,
    lastBackup: Option<int>)

  /** The settings before anything is set: no theme, no backup path, dynamic colours on, no backup. */
  const InitialSettings := Settings(None, None, true, None)

  // ---------------------------------------------------------------------------
  // The five actions, as functions of the settings
  // ---------------------------------------------------------------------------

  /** `setTheme(theme)`. */
  function WithTheme(s: Settings, t: Option<Theme>): Settings {
    s.(theme := t)
  }

  /** The theme after `toggleTheme`: light becomes dark, and both dark and unset become light. */
  function ToggledTheme(t: Option<Theme>): (r: Theme)
    ensures r == Dark <==> t == Some(Light)
  {
    if t == Some(Light) then Dark else Light
  }

  /** `toggleTheme()`. */
  function WithToggledTheme(s: Settings): Settings {
    s.(theme := Some(ToggledTheme(s.theme)))
  }

  /** `toggleDynamicColors()`. */
  function WithToggledDynamicColors(s: Settings): Settings {
    s.(dynamicColors := !s.dynamicColors)
  }

  /** `setLocalBackupPath(path)`. */
  function WithLocalBackupPath(s: Settings, path: Option<string>): Settings {
    s.(localBackupPath := path)
  }

  /** `setLastBackup(date)`. */
  function WithLastBackup(s: Settings, date: Option<int>): Settings {
    s.(lastBackup := date)
  }

  /** After a toggle the theme is set, whatever it was before; nothing else changes. */
  lemma ToggleThemeSetsTheme(s: Settings)
    ensures WithToggledTheme(s).theme.Some?
    ensures WithToggledTheme(s).theme == Some(if s.theme == Some(Light) then Dark else Light)
    ensures WithToggledTheme(s).(theme := s.theme) == s
  {
  }

  /** Toggling twice restores a set theme; from an unset theme it ends on dark. */
  lemma ToggleThemeTwice(s: Settings)
    ensures s.theme.Some? ==> WithToggledTheme(WithToggledTheme(s)) == s
    ensures s.theme.None? ==> WithToggledTheme(WithToggledTheme(s)) == WithTheme(s, Some(Dark))
  {
    var twice := WithToggledTheme(WithToggledTheme(s));
    assert twice.theme == Some(ToggledTheme(Some(ToggledTheme(s.theme))));
    if s.theme.Some? {
      assert twice.theme == s.theme by {
        match s.theme.value
        case Light =>
        case Dark =>
      }
    }
  }

  /** Toggling dynamic colours flips that flag alone, and twice is no change. */
  lemma ToggleDynamicColorsInvolution(s: Settings)
    ensures WithToggledDynamicColors(s).dynamicColors != s.dynamicColors
    ensures WithToggledDynamicColors(s).(dynamicColors := s.dynamicColors) == s
    ensures WithToggledDynamicColors(WithToggledDynamicColors(s)) == s
  {
  }

  /**
   * Each setter overwrites its own field: the last write wins, writes to
   * different fields commute, and every other field is left as it was.
   */
  lemma SettersOverwriteOwnField(s: Settings, t: Option<Theme>, t': Option<Theme>, p: Option<string>, p': Option<string>, d: Option<int>, d': Option<int>)
    ensures WithTheme(WithTheme(s, t), t') == WithTheme(s, t')
    ensures WithLocalBackupPath(WithLocalBackupPath(s, p), p') == WithLocalBackupPath(s, p')
    ensures WithLastBackup(WithLastBackup(s, d), d') == WithLastBackup(s, d')
    ensures WithLocalBackupPath(WithTheme(s, t), p) == WithTheme(WithLocalBackupPath(s, p), t)
    ensures WithLastBackup(WithTheme(s, t), d) == WithTheme(WithLastBackup(s, d), t)
    ensures WithLastBackup(WithLocalBackupPath(s, p), d) == WithLocalBackupPath(WithLastBackup(s, d), p)
    ensures WithTheme(s, t).(theme := s.theme) == s
    ensures WithLocalBackupPath(s, p).(localBackupPath := s.localBackupPath) == s
    ensures WithLastBackup(s, d).(lastBackup := s.lastBackup) == s
  {
  }

  // ---------------------------------------------------------------------------
  // Theme resolution (`useThemeStore`)
  // ---------------------------------------------------------------------------

  /** `theme ?? colorScheme ?? "light"`. */
  function ResolveTheme(stored: Option<Theme>, system: Option<Theme>): (r: Theme)
    ensures stored.Some? ==> r == stored.value
    ensures stored.None? && system.Some? ==> r == system.value
    ensures stored.None? && system.None? ==> r == Light
  {
    stored.GetOr(system.GetOr(Light))
  }

  /** What `useThemeStore` hands to the screens. */
  datatype ThemeView = ThemeView(theme: Theme, isDarkMode: bool)

  function ThemeStoreView(s: Settings, system: Option<Theme>): (v: ThemeView)
    ensures v.theme == ResolveTheme(s.theme, system)
    ensures v.isDarkMode <==> v.theme == Dark
  {
    var actual := ResolveTheme(s.theme, system);
    ThemeView(actual, actual == Dark)
  }

  /** Once a theme is set, the device's colour scheme no longer matters. */
  lemma SetThemeOverridesSystem(s: Settings, t: Theme, system: Option<Theme>)
    ensures ThemeStoreView(WithTheme(s, Some(t)), system).theme == t
    ensures ThemeStoreView(WithTheme(s, Some(t)), system).isDarkMode <==> t == Dark
  {
  }

  /** The device's colour scheme shows through exactly when no theme is stored. */
  lemma SystemShowsThroughOnlyWhenUnset(s: Settings, a: Option<Theme>, b: Option<Theme>)
    ensures s.theme.Some? ==> ThemeStoreView(s, a) == ThemeStoreView(s, b)
    ensures s.theme.None? && a.Some? ==> ThemeStoreView(s, a).theme == a.value
  {
  }

  /**
   * `toggleTheme` flips the displayed theme unless no theme is stored and the
   * device is not dark: from an unset theme it always lands on light, so with
   * a light (or unknown) device scheme the first toggle changes nothing on
   * screen.
   */
  lemma ToggleFlipsDisplayedThemeIff(s: Settings, system: Option<Theme>)
    ensures ThemeStoreView(WithToggledTheme(s), system).theme != ThemeStoreView(s, system).theme
        <==> s.theme.Some? || system == Some(Dark)
  {
  }

  // ---------------------------------------------------------------------------
  // The store
  // ---------------------------------------------------------------------------

  /** The single settings store instance; its actions update fields in place. */
  class SettingsStore {
    var theme: Option<Theme>
    var localBackupPath: Option<string>
    var dynamicColors: bool
    var lastBackup: Option<int>

    function State(): Settings
      reads this
    {
      Settings(theme, localBackupPath, dynamicColors, lastBackup)
    }

    constructor ()
      ensures State() == InitialSettings
    {
      theme := None;
      localBackupPath := None;
      dynamicColors := true;
      lastBackup := None;
    }

    method SetTheme(t: Option<Theme>)
      modifies this
      ensures State() == WithTheme(old(State()), t)
    {
      theme := t;
    }

    method ToggleTheme()
      modifies this
      ensures State() == WithToggledTheme(old(State()))
    {
      theme := Some(if theme == Some(Light) then Dark else Light);
    }

    method ToggleDynamicColors()
      modifies this
      ensures State() == WithToggledDynamicColors(old(State()))
    {
      dynamicColors := !dynamicColors;
    }

    method SetLocalBackupPath(path: Option<string>)
      modifies this
      ensures State() == WithLocalBackupPath(old(State()), path)
    {
      localBackupPath := path;
    }

    method SetLastBackup(date: Option<int>)
      modifies this
      ensures State() == WithLastBackup(old(State()), date)
    {
      lastBackup := date;
    }
  }
}
