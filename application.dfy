/** Startup (`activate` in src/ui/application.rs): choose the configuration
    directory, resolve the configuration and the theme with a fallback to
    the built-in defaults on any failure, then apply both to the window and
    present it. The file system, the TOML parser, the platform configuration
    directory and the command-line options are parameters; the application
    name comes from src/constants.rs, which is not part of this model, and
    is a parameter too. */
module Application {
  import opened Wrappers
  import opened Text
  import Toml
  import Config
  import Theme

  /** The two command-line options (src/options.rs). */
  datatype Options = Options(defaultConfig: bool, configPath: Option<Path>)

  /** The configuration directory AS WRITTEN: `unwrap_or` receives its
      fallback already evaluated, so `dirs::config_dir().unwrap()` runs, and
      panics (None here) when the platform has no configuration directory,
      even when `--config-path` was given. */
  function ConfigDirectoryAsWritten(options: Options, platformDir: Option<Path>, appName: string): (r: Option<Path>)
    ensures r.Some? <==> platformDir.Some?
    ensures r.Some? && options.configPath.Some? ==> r == options.configPath
    ensures r.Some? && options.configPath.None? ==> r.value == Join(platformDir.value, Lower(appName))
  {
    match platformDir
    case None => None
    case Some(dir) => Some(options.configPath.GetOr(Join(dir, Lower(appName))))
  }

  /** The configuration directory as intended: the override when given,
      otherwise the platform directory with the lower-cased application
      name appended; None (a panic) only when neither exists. */
  function ConfigDirectory(options: Options, platformDir: Option<Path>, appName: string): (r: Option<Path>)
    ensures options.configPath.Some? ==> r == options.configPath
    ensures options.configPath.None? ==> (r.Some? <==> platformDir.Some?)
    ensures options.configPath.None? && r.Some? ==> r.value == Join(platformDir.value, Lower(appName))
  {
    match options.configPath
    case Some(path) => Some(path)
    case None =>
      match platformDir
      case None => None
      case Some(dir) => Some(Join(dir, Lower(appName)))
  }

  /** The two agree whenever the platform has a configuration directory. */
  lemma DirectoriesAgreeWithPlatformDir(options: Options, platformDir: Option<Path>, appName: string)
    requires platformDir.Some?
    ensures ConfigDirectoryAsWritten(options, platformDir, appName) == ConfigDirectory(options, platformDir, appName)
  {
  }

  /** The discrepancy: with `--config-path` given and no platform
      configuration directory, the code as written panics where the override
      alone would do. */
  lemma EagerFallbackPanics()
    ensures ConfigDirectoryAsWritten(Options(false, Some(["custom"])), None, "Galactic") == None
    ensures ConfigDirectory(Options(false, Some(["custom"])), None, "Galactic") == Some(["custom"])
  {
  }

  function ConfigFile(dir: Path): Path {
    Join(dir, "config.toml")
  }

  /** `<dir>/themes/<name>.toml`. */
  function ThemeFile(dir: Path, name: string): Path {
    Join(Join(dir, "themes"), name + ".toml")
  }

  /** The configuration `activate` uses: the default with `--default-config`
      (no file is consulted), otherwise what `Config::load` returns for
      `<dir>/config.toml`, or the default if it fails in any way. */
  function ResolveConfig(options: Options, dir: Path, read: Path -> Option<string>, parse: string -> Option<Toml.Value>): (c: Config.Config)
    ensures options.defaultConfig ==> c == Config.Default()
    ensures !options.defaultConfig && Config.Load(read, parse, ConfigFile(dir)).Ok? ==>
      c == Config.Load(read, parse, ConfigFile(dir)).value
    ensures !options.defaultConfig && Config.Load(read, parse, ConfigFile(dir)).Err? ==> c == Config.Default()
  {
    if options.defaultConfig then Config.Default()
    else
      match Config.Load(read, parse, ConfigFile(dir))
      case Ok(config) => config
      case Err(_) => Config.Default()
  }

  /** The theme `activate` uses: the built-in default when the configuration
      names none (no file is consulted), otherwise what `Theme::load` returns
      for `<dir>/themes/<name>.toml`, or the default if it fails in any way.
      Either way the result passes the colour validators, which is what the
      `unwrap` calls of `apply_theme` rely on. */
  function ResolveTheme(config: Config.Config, dir: Path, read: Path -> Option<string>, parse: string -> Option<Toml.Value>): (t: Theme.Theme)
    ensures Theme.Valid(t)
    ensures config.general.theme.None? ==> t == Theme.Default()
    ensures config.general.theme.Some? ==>
      var loaded := Theme.Load(read, parse, ThemeFile(dir, config.general.theme.value));
      t == if loaded.Ok? then loaded.value else Theme.Default()
  {
    Theme.DefaultIsValid();
    match config.general.theme
    case None => Theme.Default()
    case Some(name) =>
      match Theme.Load(read, parse, ThemeFile(dir, name))
      case Ok(theme) => theme
      case Err(_) => Theme.Default()
  }

  /** The configuration and theme resolved in a directory that was found. */
  function ResolveIn(options: Options, dir: Path, read: Path -> Option<string>, parse: string -> Option<Toml.Value>): (r: (Config.Config, Theme.Theme))
    ensures r.0 == ResolveConfig(options, dir, read, parse)
    ensures r.1 == ResolveTheme(r.0, dir, read, parse)
    ensures Theme.Valid(r.1)
  {
    var config := ResolveConfig(options, dir, read, parse);
    (config, ResolveTheme(config, dir, read, parse))
  }

  /** The whole resolution as written: a configuration and a theme, or None
      where `dirs::config_dir().unwrap()` panics, which happens exactly when
      the platform has no configuration directory, whatever the options.
      No load error can stop it. */
  function Resolve(appName: string, options: Options, platformDir: Option<Path>,
                   read: Path -> Option<string>, parse: string -> Option<Toml.Value>): (r: Option<(Config.Config, Theme.Theme)>)
    ensures r.Some? <==> platformDir.Some?
    ensures r.Some? ==> Theme.Valid(r.value.1)
    ensures r.Some? && options.configPath.Some? ==>
      r.value == ResolveIn(options, options.configPath.value, read, parse)
    ensures r.Some? && options.configPath.None? ==>
      r.value == ResolveIn(options, Join(platformDir.value, Lower(appName)), read, parse)
  {
    match ConfigDirectoryAsWritten(options, platformDir, appName)
    case None => None
    case Some(dir) => Some(ResolveIn(options, dir, read, parse))
  }

  /** The resolution with the corrected directory choice: it fails only
      when neither `--config-path` nor a platform directory is available. */
  function ResolveIntended(appName: string, options: Options, platformDir: Option<Path>,
                           read: Path -> Option<string>, parse: string -> Option<Toml.Value>): (r: Option<(Config.Config, Theme.Theme)>)
    ensures r.Some? <==> options.configPath.Some? || platformDir.Some?
    ensures r.Some? ==> Theme.Valid(r.value.1)
    ensures options.configPath.Some? ==>
      r == Some(ResolveIn(options, options.configPath.value, read, parse))
    ensures options.configPath.None? && r.Some? ==>
      r.value == ResolveIn(options, Join(platformDir.value, Lower(appName)), read, parse)
  {
    match ConfigDirectory(options, platformDir, appName)
    case None => None
    case Some(dir) => Some(ResolveIn(options, dir, read, parse))
  }

  /** The correction changes nothing where the program as written does not
      panic, and only adds a result where it does. */
  lemma IntendedExtendsAsWritten(appName: string, options: Options, platformDir: Option<Path>,
                                 read: Path -> Option<string>, parse: string -> Option<Toml.Value>)
    ensures Resolve(appName, options, platformDir, read, parse).Some? ==>
      ResolveIntended(appName, options, platformDir, read, parse) == Resolve(appName, options, platformDir, read, parse)
    ensures Resolve(appName, options, platformDir, read, parse).None? && options.configPath.Some? ==>
      ResolveIntended(appName, options, platformDir, read, parse) == Some(ResolveIn(options, options.configPath.value, read, parse))
  {
    if platformDir.Some? {
      DirectoriesAgreeWithPlatformDir(options, platformDir, appName);
    }
  }

  /** With `--default-config`, the result is the default configuration and
      the default theme whatever the file system holds: neither loader is
      consulted, because the default configuration names no theme. */
  lemma DefaultConfigFlagIgnoresFiles(appName: string, options: Options, platformDir: Option<Path>,
                                      read: Path -> Option<string>, parse: string -> Option<Toml.Value>)
    requires options.defaultConfig
    requires platformDir.Some?
    ensures Resolve(appName, options, platformDir, read, parse) == Some((Config.Default(), Theme.Default()))
  {
    assert Config.Default().general.theme == None;
  }

  /** A configuration that names no theme never consults the theme file. */
  lemma NoThemeNameIgnoresThemeFiles(config: Config.Config, dir: Path,
                                     read1: Path -> Option<string>, parse1: string -> Option<Toml.Value>,
                                     read2: Path -> Option<string>, parse2: string -> Option<Toml.Value>)
    requires config.general.theme.None?
    ensures ResolveTheme(config, dir, read1, parse1) == ResolveTheme(config, dir, read2, parse2)
  {
  }

  /** A call `activate` makes on the window, in order. */
  datatype WindowCall = ConfigApplied(config: Config.Config) | ThemeApplied(theme: Theme.Theme) | Presented

  /** The main window, reduced to the calls it receives. */
  class AppWindow {
    var calls: seq<WindowCall>

    constructor ()
      ensures calls == []
    {
      calls := [];
    }

    method ApplyConfig(config: Config.Config)
      modifies this
      ensures calls == old(calls) + [ConfigApplied(config)]
    {
      calls := calls + [ConfigApplied(config)];
    }

    /** `apply_theme` unwraps the colour conversions, so it needs a theme
        whose colours are valid. */
    method ApplyTheme(theme: Theme.Theme)
      requires Theme.Valid(theme)
      modifies this
      ensures calls == old(calls) + [ThemeApplied(theme)]
    {
      calls := calls + [ThemeApplied(theme)];
    }

    method Present()
      modifies this
      ensures calls == old(calls) + [Presented]
    {
      calls := calls + [Presented];
    }
  }

  /** `activate`: the configuration is applied before the theme, and both
      before the window is presented. The result is null where the
      directory lookup as written panics: without a platform configuration
      directory, even when `--config-path` is given. */
  method Activate(appName: string, options: Options, platformDir: Option<Path>,
                  read: Path -> Option<string>, parse: string -> Option<Toml.Value>) returns (window: AppWindow?)
    ensures window == null <==> platformDir.None?
    ensures window != null ==> fresh(window)
    ensures window != null ==>
      var resolved := Resolve(appName, options, platformDir, read, parse).value;
      window.calls == [ConfigApplied(resolved.0), ThemeApplied(resolved.1), Presented]
  {
    var w := new AppWindow();
    var directory := ConfigDirectoryAsWritten(options, platformDir, appName);
    if directory.None? {
      return null;
    }
    var config := ResolveConfig(options, directory.value, read, parse);
    var theme := ResolveTheme(config, directory.value, read, parse);
    w.ApplyConfig(config);
    w.ApplyTheme(theme);
    w.Present();
    return w;
  }
}
