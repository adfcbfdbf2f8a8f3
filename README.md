# bidii: settings, credentials, theme and dashboard logic

A Dafny model of the state-handling core of bidii, a React Native developer
dashboard that shows GitHub, Wakatime and Spotify activity. The model covers:

- **the settings store** (`useSettingsStore`) with its five actions, and the
  theme the screens display (`useThemeStore`): the stored theme, else the
  device's colour scheme, else light (module `AppSettings`);
- **the theme store and hook** (`useThemeStore` and `useThemeSetup` in the
  hooks directory): the preference, the dark-mode flag and the paper theme,
  and how the hook chooses between the device's Material You palette and
  the app's own palette (module `ThemeSetup`);
- **the credential store** as the screens use it: one nullable string per
  service, read by field and written by one setter per service (module
  `ApiKeys`);
- **the API-keys settings screen**: each field starts from the stored key, and
  Save stores the trimmed text, or `null` when only whitespace was typed
  (module `ApiKeysSettings`);
- **the Wakatime key screen**: Save submits the trimmed text to a validation
  call, and the key is written only when that call succeeds. A failure leaves
  the store alone and offers a Retry with the same token (module
  `WakatimeApiKey`);
- **the dashboard** (`Overview`): the "time ago" text, the GitHub summary
  with its star total, the mock Spotify tracks, the gating of each query on
  its credential, the combined loading flag, and the five selectable days
  (module `Overview`).

Two helper modules hold what these share. `Opt` is the optional value that
stands for `T | null`. `JsText` holds the JavaScript string semantics the
code relies on: `trim`, truthiness of `string | null`, and the decimal text
of an integer in a template literal.

Stores and screens whose state changes in place are classes. Their methods
state the new state as a pure function of the old one
(`ensures State() == WithToggledTheme(old(State()))`), and the properties
are proved as lemmas about those functions. `getLastFiveDays` is a method
with a loop. The rest is functions and lemmas.

The code has no fetch orchestrator of its own. Deduplication of in-flight
fetches, caching, refetching and loading state are all left to TanStack
Query. The model follows the code: it describes what each query function
returns and when a query is enabled, and it takes the loading flags as
inputs.

## Model

| member | source | states |
|---|---|---|
| `AppSettings.SettingsStore.constructor` | stores/use-app-settings.tsx:23-26 | The store starts with no theme, no backup path, dynamic colours on and no last backup. |
| `AppSettings.SettingsStore.SetTheme` | stores/use-app-settings.tsx:28 | The new state is the old one with the theme replaced. |
| `AppSettings.SettingsStore.ToggleTheme` | stores/use-app-settings.tsx:30-33 | The new state is the old one with the toggled theme. |
| `AppSettings.SettingsStore.ToggleDynamicColors` | stores/use-app-settings.tsx:35-38 | The new state is the old one with the dynamic-colours flag negated. |
| `AppSettings.SettingsStore.SetLocalBackupPath` | stores/use-app-settings.tsx:40 | The new state is the old one with the backup path replaced. |
| `AppSettings.SettingsStore.SetLastBackup` | stores/use-app-settings.tsx:42 | The new state is the old one with the last-backup time replaced. |
| `AppSettings.ToggledTheme` | stores/use-app-settings.tsx:32 | Toggling gives dark exactly when the theme was light, so both dark and unset go to light. |
| `AppSettings.ToggleThemeSetsTheme` | stores/use-app-settings.tsx:30-33 | After a toggle the theme is never unset, and no other field changes. |
| `AppSettings.ToggleThemeTwice` | stores/use-app-settings.tsx:32 | Two toggles restore a set theme; from an unset theme they give dark. |
| `AppSettings.ToggleDynamicColorsInvolution` | stores/use-app-settings.tsx:35-38 | The toggle flips the flag, changes no other field, and is its own inverse. |
| `AppSettings.SettersOverwriteOwnField` | stores/use-app-settings.tsx:28-42 | Each setter overwrites only its own field. The last write wins, and writes to different fields commute. |
| `AppSettings.ResolveTheme` | stores/use-app-settings.tsx:60 | The displayed theme is the stored one if set, else the device scheme if known, else light. |
| `AppSettings.ThemeStoreView` | stores/use-app-settings.tsx:60-61 | Dark mode holds exactly when the resolved theme is dark. |
| `AppSettings.SetThemeOverridesSystem` | stores/use-app-settings.tsx:60-61 | After `setTheme(t)` with a non-null `t`, the screens show `t` whatever the device scheme. |
| `AppSettings.SystemShowsThroughOnlyWhenUnset` | stores/use-app-settings.tsx:60 | The device scheme affects the displayed theme only while no theme is stored. |
| `AppSettings.ToggleFlipsDisplayedThemeIff` | stores/use-app-settings.tsx:30-61 | A toggle changes the displayed theme exactly when a theme is stored or the device is dark. |
| `ThemeSetup.ThemeStore.constructor` | hooks/useThemeSetup.tsx:30-32 | The theme store starts with preference "system", dark mode off and an empty paper theme. |
| `ThemeSetup.ThemeStore.SetTheme` | hooks/useThemeSetup.tsx:33 | The new state is the old one with the preference replaced. |
| `ThemeSetup.ThemeStore.ToggleDarkMode` | hooks/useThemeSetup.tsx:34 | The new state is the old one with dark mode negated. |
| `ThemeSetup.ThemeStore.UpdatePaperTheme` | hooks/useThemeSetup.tsx:35 | The new state is the old one with the paper theme replaced. |
| `ThemeSetup.ToggleDarkModeInvolution` | hooks/useThemeSetup.tsx:34 | The toggle negates dark mode, leaves the preference and paper theme alone, and twice is no change. |
| `ThemeSetup.SettersTouchOneField` | hooks/useThemeSetup.tsx:33-35 | `setTheme` changes only the preference and `updatePaperTheme` changes only the paper theme. |
| `ThemeSetup.MaterialYouThemeOrMyTheme` | hooks/useThemeSetup.tsx:39-54 | The app's own palette is used exactly when both device primaries equal the stock ones; otherwise the device's two schemes are used. |
| `ThemeSetup.OneStockPrimaryIsNotEnough` | hooks/useThemeSetup.tsx:40-53 | If only one primary matches the stock value, the device palette is used. |
| `ThemeSetup.SelectPalettes` | hooks/useThemeSetup.tsx:71-77 | With dynamic colours off, the palette is the app's own; with them on, it is what `materialYouThemeOrMyTheme` chooses. |
| `ThemeSetup.SelectPaperTheme` | hooks/useThemeSetup.tsx:80-91 | The paper theme is dark-based exactly in dark mode, and uses that side's colours. |
| `ThemeSetup.StaticColorsIgnoreDevice` | hooks/useThemeSetup.tsx:71-91 | With dynamic colours off, the device theme makes no difference, and the colours are the app's light or dark palette. |
| `ThemeSetup.DarkBasedIffDarkMode` | hooks/useThemeSetup.tsx:91 | The chosen theme is dark-based exactly when dark mode is on, with that side's palette. |
| `ThemeSetup.PreferenceDoesNotChoosePaperTheme` | hooks/useThemeSetup.tsx:62-95 | The light, dark or system preference has no effect on which paper theme is chosen. |
| `ThemeSetup.UseThemeSetup` | hooks/useThemeSetup.tsx:57-101 | dynamicColors defaults to false. The effect stores the chosen paper theme and changes nothing else. The hook returns that theme, the preference and the dark-mode flag. |
| `ApiKeys.Keys.Set` | components/screens/settings/ApiKeysSeettings.tsx:19 | Writing a service's key changes that key to the new value and leaves the other services' keys alone. |
| `ApiKeys.SetGetRoundTrip` | components/screens/settings/ApiKeysSeettings.tsx:19 | A written key reads back as written, and the last write wins. |
| `ApiKeys.SetsCommute` | components/screens/settings/ApiKeysSeettings.tsx:19 | Writes to different services commute. |
| `ApiKeys.ApiKeysStore.Set` | components/screens/settings/ApiKeysSeettings.tsx:19 | The store's setter writes one service's key and leaves the others unchanged. |
| `JsText.Trim` | components/screens/settings/ApiKeysSeettings.tsx:29 | `trim` returns the part of the text with only whitespace around it and none at its ends; it is empty exactly when the text is all whitespace. |
| `JsText.TrimUnique` | components/screens/settings/ApiKeysSeettings.tsx:29 | Any part of the text with only whitespace around it and none at its ends is the trim. |
| `JsText.TrimIdempotent` | components/screens/settings/ApiKeysSeettings.tsx:29 | Trimming twice is the same as trimming once. |
| `JsText.NumberToStringRoundTrip` | components/screens/home/Overview.tsx:119-121 | The decimal text of an integer reads back as that integer. |
| `JsText.ParsedIsRendered` | components/screens/home/Overview.tsx:119-121 | Any text that reads back as an integer is exactly that integer's decimal text: no leading zeros and no "-0". |
| `ApiKeysSettings.InitialFieldText` | components/screens/settings/ApiKeysSeettings.tsx:21-22 | A field starts with the stored key, or with `""` when no key is stored. |
| `ApiKeysSettings.SavedKey` | components/screens/settings/ApiKeysSeettings.tsx:29 | Save stores `null` exactly when the text is all whitespace; otherwise it stores the trimmed text. |
| `ApiKeysSettings.SaveUneditedIsNoOp` | components/screens/settings/ApiKeysSeettings.tsx:21-29 | Saving an unedited field stores back the same key, when that key is non-empty with no surrounding whitespace. |
| `ApiKeysSettings.SaveIsIdempotent` | components/screens/settings/ApiKeysSeettings.tsx:29 | Every saved value has that form, so saving again unedited changes nothing. |
| `ApiKeysSettings.ApiKeysSettingsScreen.constructor` | components/screens/settings/ApiKeysSeettings.tsx:21-26 | Both fields start from the store, and the snackbar starts hidden. |
| `ApiKeysSettings.ApiKeysSettingsScreen.EditGithubKey` | components/screens/settings/ApiKeysSeettings.tsx:83 | Typing sets the GitHub field. |
| `ApiKeysSettings.ApiKeysSettingsScreen.EditWakatimeKey` | components/screens/settings/ApiKeysSeettings.tsx:129 | Typing sets the Wakatime field. |
| `ApiKeysSettings.ApiKeysSettingsScreen.HandleSaveGithub` | components/screens/settings/ApiKeysSeettings.tsx:28-32 | Save writes the saved form of the GitHub field to the GitHub key only, and shows "GitHub API key saved". |
| `ApiKeysSettings.ApiKeysSettingsScreen.HandleSaveWakatime` | components/screens/settings/ApiKeysSeettings.tsx:34-38 | Save writes the saved form of the Wakatime field to the Wakatime key only, and shows "Wakatime API key saved". |
| `ApiKeysSettings.ApiKeysSettingsScreen.DismissSnackbar` | components/screens/settings/ApiKeysSeettings.tsx:152-159 | Dismissing or closing the snackbar hides it. |
| `WakatimeApiKey.SubmittedToken` | components/screens/settings/WakatimeApiKey.tsx:60 | The submitted token is the trimmed field text. It is never `null`: blank text submits `""`. |
| `WakatimeApiKey.AfterSettle` | components/screens/settings/WakatimeApiKey.tsx:26-56 | A failed validation leaves every key unchanged. A successful one sets the Wakatime key to the token. No other key ever changes. |
| `WakatimeApiKey.SettleSnackbar` | components/screens/settings/WakatimeApiKey.tsx:28-55 | The snackbar lasts 5000 ms. It offers Retry exactly on failure, and that Retry carries the failed token. |
| `WakatimeApiKey.AttemptsWriteOnlyOnResolve` | components/screens/settings/WakatimeApiKey.tsx:26-56 | Over a save and any number of retries, the Wakatime key ends as the token if some attempt succeeded, and unchanged otherwise. |
| `WakatimeApiKey.WakatimeApiKeyScreen.constructor` | components/screens/settings/WakatimeApiKey.tsx:15 | The field starts with the stored key, or with `""`; nothing is pending. |
| `WakatimeApiKey.WakatimeApiKeyScreen.EditKey` | components/screens/settings/WakatimeApiKey.tsx:98 | Typing sets the field. |
| `WakatimeApiKey.WakatimeApiKeyScreen.HandleSave` | components/screens/settings/WakatimeApiKey.tsx:59-61 | Save submits the trimmed text for validation without touching the store, and the screen is then pending. |
| `WakatimeApiKey.WakatimeApiKeyScreen.Settle` | components/screens/settings/WakatimeApiKey.tsx:18-56 | When a submitted validation settles, the store changes exactly as `AfterSettle` says, and the matching snackbar is shown. |
| `WakatimeApiKey.WakatimeApiKeyScreen.IsPending` | components/screens/settings/WakatimeApiKey.tsx:118 | A definition with no contract: some submitted validation has not settled. `HandleSave` and `PressRetry` ensure it afterwards; the "## Left out" line on `WakatimeApiKeyScreen.IsPending` says how it differs from TanStack's `isPending`. |
| `WakatimeApiKey.WakatimeApiKeyScreen.PressRetry` | components/screens/settings/WakatimeApiKey.tsx:47-49 | Retry submits again the token that failed. |
| `Overview.HoursBetween` | components/screens/home/Overview.tsx:117 | The hour count is the elapsed time divided by an hour, rounded down. |
| `Overview.TimeAgoOf` | components/screens/home/Overview.tsx:117-121 | Under a day (24 × 3,600,000 ms) the text counts hours, rounded down. From a day on it counts whole days, at least one, rounded down. |
| `Overview.Render` | components/screens/home/Overview.tsx:119-121 | A definition with no contract of its own: `"{hours}h ago"` or `"{days}d ago"`, the count written as a template literal writes it. `Overview.RenderRoundTrip` states what it means. |
| `Overview.RenderRoundTrip` | components/screens/home/Overview.tsx:119-121 | A text reads back as a count exactly when it is that count's rendering. Different counts give different texts, and texts such as "07h ago" or "-0h ago" read back as nothing. |
| `Overview.FormatTimeAgo` | components/screens/home/Overview.tsx:114-122 | The text reads back as the count `TimeAgoOf` gives, and it is the only text that does, so it is that count in plain decimal followed by "h ago" or "d ago". |
| `Overview.RecentRepos` | components/screens/home/Overview.tsx:70-74 | The summary has one entry per repository, in the same order, keeping name, last update and language. |
| `Overview.TotalStars` | components/screens/home/Overview.tsx:76 | A definition with no contract of its own: the left fold of `reduce`, starting from 0. `Overview.TotalStarsSplit` and `Overview.TotalStarsBounds` state what it means. |
| `Overview.TotalStarsSplit` | components/screens/home/Overview.tsx:76 | The star total is additive over concatenation, so it is the sum of every repository's stars. |
| `Overview.TotalStarsBounds` | components/screens/home/Overview.tsx:76 | With no negative counts, the total is non-negative and at least each repository's count. |
| `Overview.GitHubQueryFn` | components/screens/home/Overview.tsx:60-80 | The summary is there exactly when the key is non-empty and both responses carry data. It then holds the projected repositories, the user's public-repo count and the star total. |
| `Overview.SpotifyQueryFn` | components/screens/home/Overview.tsx:91-101 | There are tracks exactly when the token is non-empty, and then there are three. |
| `Overview.QueryEnabled` | components/screens/home/Overview.tsx:81 | A query is enabled exactly when its credential is present and non-empty. |
| `Overview.GatingAgreesWithGuard` | components/screens/home/Overview.tsx:58-103 | A disabled query shows nothing. An enabled GitHub query lacks a summary only when a response lacks data, and an enabled Spotify query always has the mock tracks. |
| `Overview.IsLoading` | components/screens/home/Overview.tsx:105 | A definition with no contract: the disjunction of the GitHub and Spotify loading flags. The flags themselves come from TanStack Query and are inputs. |
| `Overview.GetLastFiveDays` | components/screens/home/Overview.tsx:36-47 | There are five entries, starting today and one day earlier each. They are labelled "Today", "Yesterday", then by their own date. |

## Left out

- Persistence of the settings store (zustand `persist` over AsyncStorage): the store is modelled in memory only.
- The credential store's definition is not part of this model; it appears only as one optional string per service.
- The store's initial keys are a constructor parameter, because its real initial state is not known.
- TanStack Query is not part of this model: caching, deduplication, refetch on pull-to-refresh, and where `isLoading` and `isPending` come from. The loading flags are inputs. Only the query functions, the `enabled` gates and the mutation callbacks are modelled.
- `WakatimeApiKeyScreen.IsPending` counts every unsettled validation. TanStack's `isPending` follows only the latest `mutate` call. The order in which validations settle is left to the caller of `Settle`.
- The GitHub and Wakatime clients and `checkIfTokenIsValid` are network calls. They are parameters: response functions for GitHub, and a succeed-or-fail outcome for validation, whose resolved value the code ignores.
- `deepmerge`, `adaptNavigationTheme`, `useMaterial3Theme` and the colour constants are not modelled. Palettes are opaque values. Device schemes expose only their primary colour, and the stock primaries are a parameter.
- The hook reads the paper theme from the store during render, before its effect runs. So on the first render it returns the empty theme. On any render where `isDarkMode`, the device theme or `dynamicColors` has just changed, it returns the previous paper theme together with the new `isDarkMode`. Effect scheduling is left out: `UseThemeSetup` describes only the state once the effect has run.
- Dates are integers: instants are milliseconds since the epoch and days are day numbers. Date parsing, an unparseable date string (which gives `NaN`), time zones, and the gap between the UTC `toISOString` value and the local-time label are left out. The short date label is the day itself, not its `en-US` text.
- Numbers are unbounded integers. The model ignores JavaScript's double precision and exponent notation from 1e21 on.
- Snackbars are left out beyond the message and the Retry action: the Undo action only logs, and so does dismissal. The settings screen's 3-second duration is also left out.
- The secure-entry toggles, links, navigation and all rendering are left out.
- `Overview.SpotifyQueryFn`: its own contract gives only the count and the first track's name. `Overview.GatingAgreesWithGuard` states that an enabled query returns exactly the three mock tracks.
