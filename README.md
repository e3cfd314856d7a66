# Theme object of xfdashboard, modelled in Dafny

xfdashboard's theme object (`src/theme.c`) turns a theme name into a loaded
theme. It works in three parts:

- **Lookup.** It probes three descriptor paths in a fixed order and takes the
  first one the file probe accepts. The probe is one `g_file_test` call with
  the flags `EXISTS | IS_REGULAR`. GLib accepts a path when any one flag holds,
  so in effect the probe only tests that the path exists. The order is
  `<user data dir>/themes/<name>/xfdashboard-1.0/xfdashboard.theme`, then the
  same under `<home>/.themes` (only when a home directory is known), then the
  same under the compile-time system data directory. It returns the folder of
  the descriptor it found.
- **Resource loading.** It reads the descriptor's `Name`, `Comment`, `Style`
  and `LayoutPrimary` keys. Each `Style` file goes to the CSS style sheet in list
  order, with its zero-based position as priority. Each `LayoutPrimary` file
  goes to the layout in list order. The first failure cleans the object up and
  ends the load.
- **Lifecycle.** A load is refused while a theme name is set. Name and path are
  stored only after every resource loaded.

The model has four modules:

- `ThemeWorld` (`theme_world.dfy`) holds the outside world.
  - Paths are sequences of segments.
  - The file system is the set of paths the probe accepts, that is every
    existing path, directories included.
  - The key file is a map from descriptor path to the values its reads return.
  - Each sink is an oracle. It says whether appending a file succeeds, given the
    files the sink already holds.
  - `Feed` is the generic "append in order, stop at the first refusal" process.
    Its lemmas characterise it.
- `ThemeLookup` (`theme_lookup.dfy`) holds the lookup. `Lookup` is a reference
  definition (the first candidate the probe accepts). `LookupPathForTheme` is the source's
  three guarded probes, proved equal to it.
- `ThemeResources` (`theme_resources.dfy`) holds `LoadResourcesTrace`. It is a
  reference definition of one resource load: its outcome plus every sink call
  made, in order. The lemmas state the ordering and fail-fast properties.
- `ThemeObject` (`theme_object.dfy`) holds the class `Theme`. Its fields are
  those of the private structure. Its methods (`Clean`, `LoadResources` with its
  two loops, `Load`) change them step by step, as the source does. Two ghost
  sequences record every call made to the sinks. The getters are functions.
  Three client methods show what callers can rely on.

### Where cleanup falls short

Cleanup (src/theme.c:61-105) is documented as releasing the allocated
resources (src/theme.c:69). Initialisation unsets all six fields, the display
name included (src/theme.c:414-419). Cleanup instead has the `themeComment`
block twice (src/theme.c:82-92) and no block for `themeDisplayName`. The second
copy evidently stood for the display name. A failed load that already read
`Name` therefore leaves the display name set.

The model follows the code:

- `Theme.Clean` keeps the display name.
- `Theme.Valid` only requires a loaded theme to have a display name. It does not
  require the converse.
- `FailedLoadKeepsDisplayName` shows the stale display name after a failed load.
- `Theme.CleanAll` is the corrected cleanup, which clears the display name too.
  `FailedLoadThenCleanAll` shows that after it every getter reads unset again.
  See "## Findings".

## Model

| member | source | states |
|---|---|---|
| `ThemeObject.Theme.constructor` | src/theme.c:406-419 | A new theme has no name, path, display name, comment, style sheet or layout. No sink has been called. |
| `ThemeObject.Theme.Clean` | src/theme.c:61-105 | Cleanup unsets name, path, comment, style sheet and layout. It leaves the display name as it was. It keeps the object invariant. |
| `ThemeObject.Theme.CleanAll` | src/theme.c:61-105 | Corrected cleanup: as `Clean`, and the display name is unset too, so every identity field reads as on a new theme. It keeps the object invariant. |
| `ThemeObject.Theme.AddStyleFiles` | src/theme.c:210-242 | Style files are appended in list order, each with priority equal to its position. Appending stops at the first refusal. It succeeds exactly when the sheet accepts every file. Either way the sheet holds exactly the accepted files. The calls made are the accepted files plus the refused one. |
| `ThemeObject.Theme.AddLayoutFiles` | src/theme.c:264-295 | Layout files are appended in list order. Appending stops at the first refusal. It succeeds exactly when every file is accepted. Either way the layout holds exactly the accepted files. The calls made are the accepted files plus the refused one. |
| `ThemeObject.Theme.LoadResources` | src/theme.c:108-302 | The result and the sink calls are those of `LoadResourcesTrace`. On success the display name, comment, style sheet and layout are set, and name and path are untouched. On failure everything cleanup releases is unset. The display name is whatever the `Name` read returned, or the old value when the descriptor was unreadable. An empty folder changes nothing. |
| `ThemeObject.Theme.Load` | src/theme.c:461-524 | An empty name, an already loaded theme (error carries both names) or a failed lookup (error carries the name) changes nothing. Otherwise the result is the resource load's. Name and path are set only on full success. Any other failure leaves the object released and loadable again. The object invariant is kept. |
| `ThemeObject.Theme.GetThemeName` | src/theme.c:437-442 | A set theme name comes with path, display name, comment, style sheet and layout all set. |
| `ThemeObject.Theme.GetDisplayName` | src/theme.c:445-450 | The display name is set whenever a theme is loaded. The converse is not claimed, because cleanup never clears it. |
| `ThemeObject.Theme.GetComment` | src/theme.c:453-458 | The comment is set exactly when a theme is loaded. |
| `ThemeObject.Theme.GetCss` | src/theme.c:527-532 | The style sheet is present exactly when a theme is loaded. |
| `ThemeObject.Theme.GetLayout` | src/theme.c:535-540 | The layout is present exactly when a theme is loaded. |
| `ThemeObject.LoadTwice` | src/theme.c:476-486 | After a successful load, a second load fails with the already-loaded error naming both themes. The name, display name, comment, style sheet and layout stay as the first load left them. |
| `ThemeObject.RetryAfterFailure` | src/theme.c:489-517 | After a failed load, the same object can load another theme successfully. |
| `ThemeObject.FailedLoadKeepsDisplayName` | src/theme.c:82-92 | A load that read `Name` and then failed leaves no name or comment, but the display name stays set to what was read. |
| `ThemeObject.FailedLoadThenCleanAll` | src/theme.c:82-92 | The same failed load followed by the corrected cleanup leaves the theme name, display name, comment, style sheet and layout all unset. |
| `ThemeLookup.LookupPathForTheme` | src/theme.c:307-372 | The three guarded probes return exactly `Lookup`: the folder of the first candidate the probe accepts, or nothing. |
| `ThemeLookup.Candidates` | src/theme.c:317-357 | The candidates are the user data path first and the system path last. The home path comes between them exactly when a home directory is known. |
| `ThemeLookup.FirstHit` | src/theme.c:317-357 | The chosen candidate passes the probe and no earlier candidate does. When no candidate passes, none is chosen. |
| `ThemeLookup.LookupFindsFirstHit` | src/theme.c:317-371 | The lookup finds a folder exactly when the name is non-empty and some candidate passes the probe. The folder plus the descriptor file name is the first such candidate. |
| `ThemeLookup.LookupPrefersUserData` | src/theme.c:317-327 | A theme under the user data directory is chosen over any other location. |
| `ThemeLookup.LookupPrefersHome` | src/theme.c:329-345 | A theme under `~/.themes` is chosen over the system one when the user data directory lacks it. |
| `ThemeLookup.LookupSkipsMissingHome` | src/theme.c:329-357 | Without a home directory the lookup does not fail. It takes the user data candidate, else the system candidate, else nothing. |
| `ThemeLookup.LookupFallsBackToSystem` | src/theme.c:347-371 | When neither user location holds the theme, the lookup returns the system folder if its descriptor passes the probe, and nothing otherwise. |
| `ThemeLookup.LookupResultIsThemeDir` | src/theme.c:359-368 | A lookup result is non-empty and is one of the three `.../<name>/xfdashboard-1.0` folders. Its descriptor path passes the probe. |
| `ThemeResources.LoadResourcesSucceedsIff` | src/theme.c:127-301 | A resource load succeeds exactly when the descriptor is readable, all four keys are present, and both sinks accept every listed file in order. It then yields `Name`, `Comment` and exactly the planned style and layout calls. |
| `ThemeResources.StylesAttemptedInOrder` | src/theme.c:210-241 | Style call k is entry k of `Style` under the theme folder, with priority k. Every call but the last was accepted. A refused last call fails the load naming that file, and no layout file is tried. |
| `ThemeResources.StyleRejectionStopsLoad` | src/theme.c:213-233 | If entry i is the first refused style file, the calls are exactly entries 0..i and the error names entry i. No layout call is made. |
| `ThemeResources.LayoutsOnlyAfterStyles` | src/theme.c:245-294 | Layout calls happen only after every style file was accepted and all keys were read. They follow `LayoutPrimary` order, and every one but the last was accepted. A failure then names the last one. |
| `ThemeResources.MissingKeyAborts` | src/theme.c:127-208 | An unreadable descriptor, or a missing `Name`, `Comment` or `Style`, fails with that error and makes no sink call. |
| `ThemeResources.MissingLayoutAfterStyles` | src/theme.c:245-262 | A missing `LayoutPrimary` fails with that key even after every style file was accepted. No layout file is tried. |
| `ThemeResources.StyleOrderExample` | src/theme.c:210-241 | `Style = [a, b, c]`, all accepted, gives the calls (a, 0), (b, 1), (c, 2) in that order. |
| `ThemeResources.StyleRollbackExample` | src/theme.c:213-233 | `Style = [a, bad, c]` with `bad` refused gives the calls (a, 0) and (bad, 1) only. The load fails naming `bad`, and no layout call is made. |
| `ThemeWorld.FeedOutcome` | src/theme.c:213-241 | Feeding a fresh sink either adds every entry, all accepted in order, or stops at the first refused entry. In the second case the sink holds exactly the entries before it. |
| `ThemeWorld.FeedAllAccepted` | src/theme.c:213-241 | If the sink accepts every entry in order, all of them are added. |
| `ThemeWorld.FeedFirstRejection` | src/theme.c:219-233 | If entry i is the first refused entry, feeding stops there, holding entries 0..i-1. |
| `ThemeWorld.FeedSkip` | src/theme.c:213-241 | Feeding past accepted entries goes on exactly as feeding from where they end. |
| `ThemeWorld.FeedFrom` | src/theme.c:213-241 | Feeding resumed after i accepted entries either adds all of them or stops at a later first refusal. |

## Left out

- ThemeLookup.Lookup: the probe is modelled as it behaves, accepting every existing path (src/theme.c:322, 339, 352). A directory named `xfdashboard.theme` under a user location therefore wins the lookup. The load then fails reading the key file and does not fall back to a later location. The model does not tell regular files from other existing paths, so it cannot state the "regular files only" reading that the `IS_REGULAR` flag suggests.

- Key-file parsing, the fixed group name and locale resolution are not modelled. A readable descriptor is an abstract map from key to the value each read returns. A missing key stands for any failed read.
- File probing and path utilities are abstracted. The probe is membership in `probeHits`. Paths are segment sequences: building a path appends segments, and taking the directory drops the last segment. A resource entry is one segment, so slashes and normalisation are not modelled.
- CSS and XML parsing inside the two sinks are not modelled. Each sink is an oracle over (files already held, next file). A sink refusal stands for any parse error it reports.
- The error detail is abstracted. The GError domain, its codes, and messages with i18n text are reduced to the `ThemeError` variants. An empty name or folder (a `g_return_val_if_fail` guard) is `InvalidArgument`, and in the source it also logs a critical warning.
- Memory management is not modelled (`g_free`, `g_strfreev`, `g_key_file_free`, `g_object_unref`, duplicating strings). Releasing something is a field becoming unset. The leak of an overwritten display name on a retried load is not visible.
- Object plumbing is left out: GObject type registration, dispose, class init, the error quark, `xfdashboard_theme_new` and `g_debug` logging.
- The `counter` increment in the layout loop (src/theme.c:293) is left out because it has no observable effect.
- Theme.Clean: the second, redundant clearing of `themeComment` is folded into one. Clearing an already unset field changes nothing.
- The sinks are values held in the theme's fields rather than separate objects, so sharing a sink between objects is not modelled.

## Findings

| source | as written | input that shows it | evidently intended | confidence | as-written member | corrected member |
|---|---|---|---|---|---|---|
| src/theme.c:82-92 | Cleanup clears `themeComment` twice and never clears `themeDisplayName`. | A descriptor with `Name` but no `Comment`: the load reads `Name`, fails on `Comment`, and after cleanup the display name is still set. | Cleanup releases the display name too, as initialisation does (src/theme.c:415). | not executed | `ThemeObject.FailedLoadKeepsDisplayName` | `ThemeObject.Theme.CleanAll`, `ThemeObject.FailedLoadThenCleanAll` |
