# Galactic configuration, theme and shortcut model

A Dafny model of the logic at the heart of the Galactic terminal emulator:

- the **colour validators** that every theme passes through while it is
  deserialised (a `#` followed by six hex digits; a palette of exactly
  sixteen such colours, checked in order);
- the **theme**: its validated record, the built-in default theme, and
  `Theme::load`. The older, unvalidated theme with its `themes` directory
  is modelled too;
- the **configuration default cascade**. Every field of `general`,
  `window`, `window.size` and `window.padding` has its own default. The
  top-level keys are strict and the nested ones are not. `Config::load`
  routes errors into `Io` and `Deserialize`. The older configuration, with
  its `SHELL`-based default command, is modelled too;
- the **command coercion** of the older configuration: one string becomes a
  one-element list, and an array must hold only strings;
- the **startup policy** of `activate`. It chooses the configuration
  directory, handles `--default-config`, and falls back to the default
  configuration and theme on any load failure. It then makes the
  apply-config, apply-theme, present call sequence;
- the two **key-press handlers**: the terminal's Control shortcuts (paste,
  copy, font scale up, down and reset) and the window's exact
  Control+Shift copy and paste.

Documents are modelled as already-parsed TOML values (`Toml.Value`).
serde's derived deserialisers are written out struct by struct:

- an absent field takes its default, or is a `MissingField` error where it
  has none;
- a value of the wrong kind is an error, and every section and nested
  struct must be given as a table (see "## Left out" for serde's
  positional array form);
- a `u32` must be in range;
- a `deny_unknown_fields` struct refuses undeclared keys, and the other
  structs ignore them.

Reading a file (`read: Path -> Option<string>`), the TOML grammar
(`parse: string -> Option<Value>`), the platform configuration directory,
the `SHELL` variable and the command-line options are parameters. Where the
source calls `unwrap()` on the platform directory, a missing directory is
modelled as `None`, meaning the program panics.

The handlers act on `Vte.Terminal`, a class holding the widget state they
touch: font scale, selection, clipboard, and the text pasted to the child.
Each handler is a method proved to leave the terminal in
`Perform(old state, Dispatch(...))` and to return the matching
propagation. The properties are proved as lemmas about `Dispatch`.

Where the documented design and the code disagree, the model follows the
code:

- In the newer configuration `general.command` is a plain `Vec<String>`.
  The string-or-array coercion of `src/utils.rs` is only attached to the
  older configuration. So `command = "/bin/sh"` is a deserialisation error
  in the newer variant (`Config.StringCommandRefused`) and `["/bin/sh"]`
  in the older one (`LegacyConfig.StringCommandCoerced`).
- No empty-command check exists. An empty array is accepted as the command
  (`Config.ArrayCommandKept`, `Utils.EmptyArrayAccepted`).
- Only the top-level `Config` of the newer variant rejects unknown keys.
  The nested sections ignore them (`ConfigWindow.UnknownKeysIgnored`). The
  older `Config` ignores them everywhere
  (`LegacyConfig.UnknownTopLevelKeyIgnored`).
- The palette error names the offending colour, not its index.
- The older default command is `SHELL` whenever that variable is set, even
  to the empty string (`LegacyConfig.EmptyShellKept`).
- There is no session state machine. Spawning the child and reacting to its
  exit are toolkit callbacks and are not modelled.

## Model

| member | source | states |
|---|---|---|
| `Text.Lower` | src/ui/window.rs:182 | lower-casing keeps the length and maps every ASCII capital to its small letter, position by position |
| `Toml.DecodeU32` | src/config/window.rs:20-24 | a TOML value becomes a `u32` exactly when it is an integer in [0, 2^32), and keeps its value |
| `Toml.StringsOf` | src/utils.rs:15-21 | a list of values yields strings exactly when every item is a string; the strings come out in order and with the same count |
| `Toml.DecodeStringArray` | src/theme/deserialize.rs:27 | a `Vec<String>` decodes exactly from an array whose items are all strings, keeping order and length |
| `ColorValidation.MatchFromHexColor` | src/theme/deserialize.rs:9-13 | the left-to-right matcher for `^#[0-9a-fA-F]{6}$` accepts exactly the 7-character strings that are `#` plus six hex digits |
| `ColorValidation.IsMatch` | src/theme/deserialize.rs:13 | the pattern test holds iff the string is a hex colour |
| `ColorValidation.Color` | src/theme/deserialize.rs:4-20 | `color` succeeds iff the value is a string that is a hex colour; on success it returns the string unchanged (case kept); a non-matching string yields `InvalidHexColor` of that string |
| `ColorValidation.FirstInvalid` | src/theme/deserialize.rs:39-46 | the returned index is the first entry that is not a hex colour, and every earlier entry is one |
| `ColorValidation.CheckPalette` | src/theme/deserialize.rs:26-48 | succeeds iff there are exactly 16 entries and all are hex colours, returning the same list; a wrong count fails with that count whatever the entries; otherwise the error names the first bad entry |
| `ColorValidation.ColorPalette` | src/theme/deserialize.rs:22-49 | the early-returning loop computes exactly `DecodePalette`: it succeeds iff the value is an array of 16 hex-colour strings |
| `ColorValidation.ShortPaletteRefused` | src/theme/deserialize.rs:31-36 | fifteen valid colours are refused with `InvalidPaletteSize(15)`, because the count is checked before the entries |
| `ColorValidation.OneBadEntryRefused` | src/theme/deserialize.rs:39-46 | one entry that is not a hex colour is enough to refuse a 16-entry palette |
| `Theme.DefaultIsValid` | src/theme/mod.rs:31-48 | the built-in theme (`#ffffff`, `#1e1e1e`, the 16 listed colours) passes `color` on both colours and `color_palette` on the palette |
| `Theme.FromToml` | src/theme/mod.rs:8-18 | a theme is produced iff the table has `foreground` and `background` passing `color` and a `palette` passing `color_palette`; every theme produced is valid and carries the document's strings |
| `Theme.Load` | src/theme/mod.rs:21-28 | a read failure is exactly `Io`; success iff the text parses and deserialises, giving that theme, which is valid; every other failure is `Deserialize` |
| `Theme.RoundTrip` | src/theme/mod.rs:8-18 | a serialised theme reads back iff it is valid, and then reads back as itself |
| `Theme.OneBadPaletteEntryYieldsNoTheme` | src/theme/mod.rs:16-27 | a theme file whose palette has one invalid entry yields no theme, only a `Deserialize` error |
| `Theme.FifteenEntryPaletteRefused` | src/theme/mod.rs:16-17 | a theme whose palette has 15 valid colours fails with the palette-size error |
| `LegacyTheme.DefaultMatchesNewer` | src/theme.rs:23-41 | the older default's own literals (`#ffffff`, `#1e1e1e`, the 16 listed colours) equal the newer default field for field, in the same order, so they would also pass the newer validators |
| `LegacyTheme.FromToml` | src/theme.rs:5-10 | the older theme deserialises iff its three fields are present with the right types, carrying the document's values; nothing else is checked |
| `LegacyTheme.AnyStringsAccepted` | src/theme.rs:5-10 | any strings deserialise as given, including palettes of any length and non-colours |
| `LegacyTheme.Directory` | src/theme.rs:18-20 | the theme directory is the older configuration directory with `themes` appended |
| `LegacyTheme.LoadToml` | src/theme.rs:13-16 | `load_toml(p)` reads `directory()/p`; a read failure is exactly `Io`; success iff the text parses and deserialises, giving that theme; every other failure is `Deserialize`, carrying the deserialiser's error when the text parsed |
| `ConfigGeneral.DefaultValues` | src/config/general.rs:15-37 | the default command is exactly `["/usr/bin/bash"]`, the font `Monospace 12`, the theme `None` |
| `ConfigGeneral.FromToml` | src/config/general.rs:3-13 | the section deserialises iff it is a table whose present fields decode; each field is its given value or, when absent, its own default, independently of the others |
| `ConfigGeneral.RoundTrip` | src/config/general.rs:3 | a serialised section reads back as itself |
| `ConfigGeneral.EmptySectionIsDefault` | src/config/general.rs:5-37 | an empty section is `General::default()` |
| `ConfigWindow.DefaultValues` | src/config/window.rs:36-101 | the default title is `Galactic`, the scroll bar is on, the size is 1200 x 800 and the padding 8 / 8 |
| `ConfigWindow.SizeFromToml` | src/config/window.rs:18-25 | each of width and height is its given `u32` or its own default |
| `ConfigWindow.PaddingFromToml` | src/config/window.rs:27-34 | each of horizontal and vertical is its given `u32` or its own default |
| `ConfigWindow.FromToml` | src/config/window.rs:3-16 | the section deserialises iff its present fields decode; each field, including the nested tables, is its decoded value or its own default |
| `ConfigWindow.RoundTrip` | src/config/window.rs:3 | a serialised section reads back as itself |
| `ConfigWindow.OnlyWidthGiven` | src/config/window.rs:11-24 | a section giving only `size.width` gets height 800 and the default title, scroll bar and padding |
| `ConfigWindow.UnknownKeysIgnored` | src/config/window.rs:3-4 | an undeclared key in the section changes nothing, because the nested structs do not deny unknown fields |
| `Config.FromToml` | src/config/mod.rs:9-17 | the document deserialises iff it is a table whose keys are among `general` and `window` and whose present sections decode; an absent section is that section's default |
| `Config.Load` | src/config/mod.rs:20-27 | a read failure is exactly `Io`; success iff the text parses and deserialises, giving that fully defaulted configuration; every other failure is `Deserialize` |
| `Config.RoundTrip` | src/config/mod.rs:9 | a serialised configuration reads back as itself |
| `Config.EmptyDocumentIsDefault` | src/config/mod.rs:12-45 | the empty document resolves to `Config::default()` |
| `Config.UnknownTopLevelKeyRefused` | src/config/mod.rs:10 | any top-level key other than `general` and `window` makes deserialisation fail |
| `Config.OnlyWidthGiven` | src/config/mod.rs:12-16 | a document giving only `window.size.width` keeps every other default, at every level |
| `Config.StringCommandRefused` | src/config/general.rs:5-6 | in this variant a single string as `command` is a deserialisation error |
| `Config.ArrayCommandKept` | src/config/general.rs:5-6 | an array command is kept as given, the empty one included, with all other fields default |
| `LegacyConfig.DefaultCommand` | src/config.rs:89-91 | the default command has exactly one element: `SHELL` when set, `/usr/bin/bash` otherwise |
| `LegacyConfig.DefaultValues` | src/config.rs:93-177 | font `Monospace 12`, theme `None`, title `Galactic`, scroll bar on, size 1200 x 800, padding x 8 / y 8 |
| `LegacyConfig.EmptyShellKept` | src/config.rs:90 | a `SHELL` set to the empty string gives the command `[""]` |
| `LegacyConfig.GeneralFromToml` | src/config.rs:14-25 | each field is its decoded value or its default; `command` is decoded by the string-or-array coercion |
| `LegacyConfig.SizeFromToml` | src/config.rs:42-49 | width and height are their given `u32`s or 1200 and 800 |
| `LegacyConfig.PaddingFromToml` | src/config.rs:51-58 | x and y are their given `u32`s or 8 and 8 |
| `LegacyConfig.WindowFromToml` | src/config.rs:27-40 | each field, including the nested tables, is its decoded value or its own default |
| `LegacyConfig.FromToml` | src/config.rs:5-12 | the document deserialises iff its present sections decode; absent sections are the defaults |
| `LegacyConfig.Directory` | src/config.rs:66-68 | the configuration directory is the platform directory with `galactic` appended; it panics without one |
| `LegacyConfig.LoadToml` | src/config.rs:61-64 | `load_toml(p)` reads `directory()/p`; a read failure is exactly `Io`; success iff the text parses and deserialises, giving that configuration; every other failure is `Deserialize` (never `Rgba`), carrying the deserialiser's error when the text parsed |
| `LegacyConfig.EmptyDocumentIsDefault` | src/config.rs:79-86 | the empty document resolves to the default configuration |
| `LegacyConfig.StringCommandCoerced` | src/config.rs:16-18 | `command = "s"` resolves to `["s"]` with every other field default |
| `LegacyConfig.UnknownTopLevelKeyIgnored` | src/config.rs:5-6 | an undeclared top-level key changes nothing |
| `LegacyConfig.OnlyWidthGiven` | src/config.rs:35-49 | a document giving only `window.size.width` keeps every other default |
| `Utils.CommandFromToml` | src/utils.rs:4-27 | a string `s` gives `[s]`; an array succeeds iff all its items are strings, giving them in order; any other value fails; every failure is the same error |
| `Utils.DeserializeVecFromValue` | src/utils.rs:10-26 | the push loop with early return computes exactly `CommandFromToml` |
| `Utils.EmptyArrayAccepted` | src/utils.rs:12-23 | the empty array gives the empty command |
| `Application.ConfigDirectoryAsWritten` | src/ui/application.rs:47-51 | as written, the result exists iff the platform directory exists, even when an override is given |
| `Application.ConfigDirectory` | src/ui/application.rs:47-51 | the override when given, otherwise the platform directory joined with the lower-cased application name |
| `Application.DirectoriesAgreeWithPlatformDir` | src/ui/application.rs:47-51 | the as-written and intended directory choices agree whenever the platform has a configuration directory |
| `Application.EagerFallbackPanics` | src/ui/application.rs:47-51 | with `--config-path` given and no platform directory, the code as written panics where the override suffices |
| `Application.ResolveConfig` | src/ui/application.rs:53-63 | with `--default-config` the default configuration; otherwise the loaded `<dir>/config.toml`, or the default on any load error |
| `Application.ResolveTheme` | src/ui/application.rs:65-75 | no theme name gives the default theme; a name `t` gives the loaded `<dir>/themes/t.toml`, or the default on any error; the result always passes the colour validators |
| `Application.ResolveIn` | src/ui/application.rs:53-75 | in a chosen directory, the configuration is `ResolveConfig`'s (the loaded `config.toml` or the default) and the theme is `ResolveTheme`'s for that configuration, which is valid |
| `Application.Resolve` | src/ui/application.rs:46-75 | as written, resolution yields a configuration and a valid theme exactly when the platform has a configuration directory, even with `--config-path` given; it resolves in the override directory when one is given and otherwise in the platform directory joined with the lower-cased application name; no load error stops it |
| `Application.ResolveIntended` | src/ui/application.rs:46-75 | with the corrected directory choice, resolution yields a configuration and a valid theme exactly when `--config-path` is given or the platform has a configuration directory, resolving in the override directory, else in the platform directory joined with the lower-cased application name |
| `Application.IntendedExtendsAsWritten` | src/ui/application.rs:47-51 | the correction gives the same result wherever the code as written succeeds, and resolves in the override directory where it panics |
| `Application.DefaultConfigFlagIgnoresFiles` | src/ui/application.rs:53-75 | with `--default-config` and a platform directory, the result is the default configuration and the default theme, whatever the files hold |
| `Application.NoThemeNameIgnoresThemeFiles` | src/ui/application.rs:72-75 | without a theme name the theme files are never consulted |
| `Application.AppWindow.ApplyTheme` | src/ui/window.rs:83-94 | applying a theme requires valid colours, since the colour conversions are unwrapped |
| `Application.Activate` | src/ui/application.rs:40-83 | no window is made exactly when the platform has no configuration directory (the as-written panic); otherwise the window receives the resolved configuration, then the resolved theme, then `present`, in that order |
| `TerminalShortcuts.ScaleUp` | src/ui/terminal.rs:164-169 | the raised scale is at most 10.0 and at most scale + 0.1, and equals one of them |
| `TerminalShortcuts.ScaleDown` | src/ui/terminal.rs:170-174 | the lowered scale is at least 0.1 and at least scale - 0.1, and equals one of them |
| `TerminalShortcuts.KeyPressed` | src/ui/terminal.rs:140-182 | the handler leaves the terminal in `Perform(old state, Dispatch(...))` and stops the event exactly when it acts |
| `TerminalShortcuts.WithoutControlNothingHappens` | src/ui/terminal.rs:141-144 | without Control the event proceeds and nothing changes |
| `TerminalShortcuts.ExtraModifiersIrrelevant` | src/ui/terminal.rs:142 | with Control held, further modifiers do not change the decision |
| `TerminalShortcuts.PasteShortcut` | src/ui/terminal.rs:152-157 | `V` pastes the clipboard, clears the selection and stops the event |
| `TerminalShortcuts.CopyShortcut` | src/ui/terminal.rs:158-163 | `C` copies the selection and clears it, stopping the event, only when there is a selection; otherwise nothing changes and the event proceeds |
| `TerminalShortcuts.CaseSensitive` | src/ui/terminal.rs:151-152 | lower-case `v` and `c` are not shortcuts here |
| `TerminalShortcuts.OtherKeysIgnored` | src/ui/terminal.rs:180 | any other key name proceeds and leaves scale, selection and clipboard unchanged |
| `TerminalShortcuts.ResetIsExact` | src/ui/terminal.rs:175-179 | `0` sets the scale to exactly 1.0 and changes nothing else |
| `TerminalShortcuts.ScaleStaysInRange` | src/ui/terminal.rs:164-174 | a scale within [0.1, 10.0] stays within it after any key |
| `TerminalShortcuts.RepeatedIncreaseReachesMax` | src/ui/terminal.rs:164-169 | with Control held, n presses of `plus`, where n steps of 0.1 would pass 10.0, leave the scale at exactly 10.0 |
| `TerminalShortcuts.RepeatedDecreaseReachesMin` | src/ui/terminal.rs:170-174 | with Control held, n presses of `minus`, where n steps of 0.1 would pass 0.1, leave the scale at exactly 0.1 |
| `WindowShortcuts.KeyPressed` | src/ui/window.rs:176-195 | the handler, with its symmetric-difference test, leaves the terminal in `Perform(old state, Dispatch(...))` and stops the event exactly when it acts |
| `WindowShortcuts.OnlyExactMask` | src/ui/window.rs:177-180 | any modifier set other than exactly {Control, Shift} lets the event through |
| `WindowShortcuts.HeldMouseButtonBlocksShortcut` | src/ui/window.rs:177-180 | with a mouse button held alongside Control and Shift, no key acts and the terminal is unchanged |
| `WindowShortcuts.CaseInsensitive` | src/ui/window.rs:182 | a key name and its lower-cased form always get the same decision |
| `WindowShortcuts.PasteEitherCase` | src/ui/window.rs:182-187 | `V` and `v` both paste the clipboard and clear the selection |
| `WindowShortcuts.CopyNeedsSelection` | src/ui/window.rs:188-193 | `c` copies only when there is a selection and otherwise proceeds |
| `WindowShortcuts.OtherKeysIgnored` | src/ui/window.rs:193 | every other key proceeds with no effect |

## Findings

| source | as written | input that shows it | evidently intended | confidence | as-written member | corrected member |
|---|---|---|---|---|---|---|
| src/ui/application.rs:47-51 | `options.config_path.unwrap_or(dirs::config_dir().unwrap().join(...))` evaluates the fallback first, so `unwrap()` runs even when `--config-path` is given | `--config-path /some/dir` on a system where `dirs::config_dir()` is `None` (no home directory): the program panics | use the override without looking at the platform directory (`unwrap_or_else`) | medium, not executed | `Application.ConfigDirectoryAsWritten` (shown by `Application.EagerFallbackPanics`) | `Application.ConfigDirectory` (used by `Application.ResolveIntended`) |

## Left out

- The GTK, Adwaita and VTE widget classes, templates and wrapper
  hierarchies. Child spawning (`spawn_async`) and the child-exit and
  window-close callbacks are left out too. These are toolkit and
  event-loop plumbing, and the code has no session states to model.
- CSS-provider strings for padding and header-bar colours, the forced dark
  colour scheme, `set_size_request(600, 400)` and `set_default_size`
  (including its `u32` to `i32` cast). These are rendering side effects.
- `gdk::RGBA::from_str` and `FontDescription::from_string`. These are
  foreign parsers. `Application.AppWindow.ApplyTheme` only requires the
  validated form that their `unwrap()` relies on.
- The TOML grammar and serde's machinery. Documents arrive parsed, and the
  parser is a parameter. Error messages are reduced to a `DeError` case.
- `ConfigGeneral.FromToml`, `ConfigWindow.FromToml`,
  `ConfigWindow.SizeFromToml`, `ConfigWindow.PaddingFromToml`,
  `LegacyConfig.GeneralFromToml`, `LegacyConfig.WindowFromToml`,
  `LegacyConfig.SizeFromToml`, `LegacyConfig.PaddingFromToml`,
  `Config.FromToml`, `LegacyConfig.FromToml`, `Theme.FromToml`,
  `LegacyTheme.FromToml`: serde's derived struct deserialisers also
  accept a struct given as an array,
  filling fields by position (for example `size = [1000, 700]`). That
  positional form is not modelled: these decoders refuse any non-table,
  so such a document is refused in the model (and `activate` then falls
  back to the defaults).
- `Theme.FromToml`, `Config.FromToml`, `ConfigGeneral.FromToml`,
  `ConfigWindow.FromToml`, `LegacyTheme.FromToml` and
  `LegacyConfig.FromToml`: when several fields are wrong, serde reports
  the first one in document order. The model checks fields in declaration
  order. Only success versus failure is claimed in those cases.
- `Vte.Terminal`: the widget's own behaviour behind `emit_paste_clipboard`,
  `emit_copy_clipboard`, `unselect_all` and `set_font_scale` is reduced to
  field updates. Any limit the widget itself puts on the font scale is not
  visible in this source.
- `TerminalShortcuts.ScaleUp`, `TerminalShortcuts.ScaleDown`: the scale is
  a real number. `f64` rounding and NaN are not modelled, and only the
  min/max clamp bounds are claimed.
- `Text.Lower`: lower-cases ASCII letters only. Rust's `to_lowercase` also
  maps other Unicode letters.
- `Text.Join`: appends a component. `PathBuf::join` with an absolute
  component replaces the whole path; for example, a theme name starting
  with `/` would do this. That case is not modelled.
- `std::fs` reads, `dirs::config_dir`, `std::env::var` and clap's option
  parsing are parameters. src/options.rs, src/main.rs, src/window.rs and
  logging are not part of this model.
- src/config/error.rs and src/constants.rs are not part of this model. The
  configuration error has the two cases its `?` conversions require, and
  the application name is a parameter.
