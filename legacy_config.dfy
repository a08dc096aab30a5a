/** The older configuration (src/config.rs): the same default cascade as
    the newer one, with `x`/`y` padding, a `command` that may be a single
    string, a default command taken from `SHELL`, no `deny_unknown_fields`,
    and files found under the platform configuration directory.
    The value of `SHELL` (None when it is unset or not Unicode) and the
    platform configuration directory (None when the platform has none) are
    parameters. */
module LegacyConfig {
  import opened Wrappers
  import opened Toml
  import opened Text
  import Utils

  datatype GeneralConfig = GeneralConfig(command: seq<string>, font: string, theme: Option<string>)
  datatype WindowSizeConfig = WindowSizeConfig(width: u32, height: u32)
  datatype WindowPaddingConfig = WindowPaddingConfig(x: u32, y: u32)
  datatype WindowConfig = WindowConfig(title: string, scrollBar: bool, size: WindowSizeConfig, padding: WindowPaddingConfig)
  datatype Config = Config(general: GeneralConfig, window: WindowConfig)

  /** src/error.rs; `Rgba` is raised only by the window code. */
  datatype Error = Io | Deserialize(cause: DeError) | Rgba

  const FallbackShell: string := "/usr/bin/bash"

  /** `vec![std::env::var("SHELL").unwrap_or(...)]`. */
  function DefaultCommand(shell: Option<string>): (r: seq<string>)
    ensures |r| == 1
    ensures shell.Some? ==> r[0] == shell.value
    ensures shell.None? ==> r[0] == FallbackShell
  {
    [shell.GetOr(FallbackShell)]
  }

  function DefaultFont(): string { "Monospace 12" }
  function DefaultTheme(): Option<string> { None }
  function DefaultTitle(): string { "Galactic" }
  function DefaultScrollBar(): bool { true }
  function DefaultWidth(): u32 { 1200 }
  function DefaultHeight(): u32 { 800 }
  function DefaultX(): u32 { 8 }
  function DefaultY(): u32 { 8 }

  function DefaultGeneral(shell: Option<string>): GeneralConfig {
    GeneralConfig(DefaultCommand(shell), DefaultFont(), DefaultTheme())
  }

  function DefaultSize(): WindowSizeConfig { WindowSizeConfig(DefaultWidth(), DefaultHeight()) }
  function DefaultPadding(): WindowPaddingConfig { WindowPaddingConfig(DefaultX(), DefaultY()) }

  function DefaultWindow(): WindowConfig {
    WindowConfig(DefaultTitle(), DefaultScrollBar(), DefaultSize(), DefaultPadding())
  }

  function Default(shell: Option<string>): Config {
    Config(DefaultGeneral(shell), DefaultWindow())
  }

  /** The documented defaults. */
  lemma DefaultValues(shell: Option<string>)
    ensures Default(shell).general.font == "Monospace 12" && Default(shell).general.theme == None
    ensures Default(shell).window.title == "Galactic" && Default(shell).window.scrollBar
    ensures Default(shell).window.size == WindowSizeConfig(1200, 800)
    ensures Default(shell).window.padding == WindowPaddingConfig(8, 8)
  {
  }

  /** `SHELL` set to the empty string is taken as it is: the fallback is
      used only when the variable is unset. */
  lemma EmptyShellKept()
    ensures DefaultCommand(Some("")) == [""]
  {
  }

  function GeneralFromToml(v: Value, shell: Option<string>): (r: Result<GeneralConfig, DeError>)
    ensures r.Ok? <==>
      && v.Table?
      && FieldDecodes(v.entries, "command", Utils.CommandFromToml)
      && FieldDecodes(v.entries, "font", DecodeString)
      && FieldDecodes(v.entries, "theme", DecodeOptionString)
    ensures r.Ok? ==>
      && FieldIs(v.entries, "command", Utils.CommandFromToml, DefaultCommand(shell), r.value.command)
      && FieldIs(v.entries, "font", DecodeString, DefaultFont(), r.value.font)
      && FieldIs(v.entries, "theme", DecodeOptionString, DefaultTheme(), r.value.theme)
  {
    if !v.Table? then Err(InvalidType("struct GeneralConfig"))
    else
      var command :- Field(v.entries, "command", Utils.CommandFromToml, DefaultCommand(shell));
      var font :- Field(v.entries, "font", DecodeString, DefaultFont());
      var theme :- Field(v.entries, "theme", DecodeOptionString, DefaultTheme());
      Ok(GeneralConfig(command, font, theme))
  }

  function SizeFromToml(v: Value): (r: Result<WindowSizeConfig, DeError>)
    ensures r.Ok? <==>
      v.Table? && FieldDecodes(v.entries, "width", DecodeU32) && FieldDecodes(v.entries, "height", DecodeU32)
    ensures r.Ok? ==>
      && FieldIs(v.entries, "width", DecodeU32, DefaultWidth(), r.value.width)
      && FieldIs(v.entries, "height", DecodeU32, DefaultHeight(), r.value.height)
  {
    if !v.Table? then Err(InvalidType("struct WindowSizeConfig"))
    else
      var width :- Field(v.entries, "width", DecodeU32, DefaultWidth());
      var height :- Field(v.entries, "height", DecodeU32, DefaultHeight());
      Ok(WindowSizeConfig(width, height))
  }

  function PaddingFromToml(v: Value): (r: Result<WindowPaddingConfig, DeError>)
    ensures r.Ok? <==>
      v.Table? && FieldDecodes(v.entries, "x", DecodeU32) && FieldDecodes(v.entries, "y", DecodeU32)
    ensures r.Ok? ==>
      && FieldIs(v.entries, "x", DecodeU32, DefaultX(), r.value.x)
      && FieldIs(v.entries, "y", DecodeU32, DefaultY(), r.value.y)
  {
    if !v.Table? then Err(InvalidType("struct WindowPaddingConfig"))
    else
      var x :- Field(v.entries, "x", DecodeU32, DefaultX());
      var y :- Field(v.entries, "y", DecodeU32, DefaultY());
      Ok(WindowPaddingConfig(x, y))
  }

  function WindowFromToml(v: Value): (r: Result<WindowConfig, DeError>)
    ensures r.Ok? <==>
      && v.Table?
      && FieldDecodes(v.entries, "title", DecodeString)
      && FieldDecodes(v.entries, "scroll_bar", DecodeBool)
      && FieldDecodes(v.entries, "size", SizeFromToml)
      && FieldDecodes(v.entries, "padding", PaddingFromToml)
    ensures r.Ok? ==>
      && FieldIs(v.entries, "title", DecodeString, DefaultTitle(), r.value.title)
      && FieldIs(v.entries, "scroll_bar", DecodeBool, DefaultScrollBar(), r.value.scrollBar)
      && FieldIs(v.entries, "size", SizeFromToml, DefaultSize(), r.value.size)
      && FieldIs(v.entries, "padding", PaddingFromToml, DefaultPadding(), r.value.padding)
  {
    if !v.Table? then Err(InvalidType("struct WindowConfig"))
    else
      var title :- Field(v.entries, "title", DecodeString, DefaultTitle());
      var scrollBar :- Field(v.entries, "scroll_bar", DecodeBool, DefaultScrollBar());
      var size :- Field(v.entries, "size", SizeFromToml, DefaultSize());
      var padding :- Field(v.entries, "padding", PaddingFromToml, DefaultPadding());
      Ok(WindowConfig(title, scrollBar, size, padding))
  }

  /** `#[derive(Deserialize)]` for the older `Config`: unknown keys are
      ignored at every level, including the top. */
  function FromToml(v: Value, shell: Option<string>): (r: Result<Config, DeError>)
    ensures r.Ok? <==>
      && v.Table?
      && ("general" in v.entries ==> GeneralFromToml(v.entries["general"], shell).Ok?)
      && FieldDecodes(v.entries, "window", WindowFromToml)
    ensures r.Ok? ==>
      && (if "general" in v.entries then GeneralFromToml(v.entries["general"], shell) == Ok(r.value.general)
          else r.value.general == DefaultGeneral(shell))
      && FieldIs(v.entries, "window", WindowFromToml, DefaultWindow(), r.value.window)
  {
    if !v.Table? then Err(InvalidType("struct Config"))
    else
      var general :- if "general" in v.entries then GeneralFromToml(v.entries["general"], shell) else Ok(DefaultGeneral(shell));
      var window :- Field(v.entries, "window", WindowFromToml, DefaultWindow());
      Ok(Config(general, window))
  }

  /** `Config::directory()`: the platform configuration directory with
      `galactic` appended; None where `dirs::config_dir().unwrap()` panics. */
  function Directory(platformDir: Option<Path>): (r: Option<Path>)
    ensures r.Some? <==> platformDir.Some?
    ensures r.Some? ==> r.value == Join(platformDir.value, "galactic")
  {
    match platformDir
    case None => None
    case Some(dir) => Some(Join(dir, "galactic"))
  }

  /** `Config::load_toml(p)`: reads `directory()/p`; a read or parse error is
      passed on. The outer None is the panic of `Directory`. */
  function LoadToml(platformDir: Option<Path>, read: Path -> Option<string>, parse: string -> Option<Value>,
                    shell: Option<string>, file: string): (r: Option<Result<Config, Error>>)
    ensures r.Some? <==> platformDir.Some?
    ensures r.Some? ==> var path := Join(Directory(platformDir).value, file);
      && (r.value == Err(Io) <==> read(path).None?)
      && (r.value.Ok? <==> read(path).Some? && parse(read(path).value).Some?
                           && FromToml(parse(read(path).value).value, shell).Ok?)
      && (r.value.Ok? ==> Ok(r.value.value) == FromToml(parse(read(path).value).value, shell))
      && (read(path).Some? && r.value.Err? ==> r.value.error.Deserialize?)
      && (read(path).Some? && parse(read(path).value).Some? && FromToml(parse(read(path).value).value, shell).Err? ==>
            r.value == Err(Deserialize(FromToml(parse(read(path).value).value, shell).error)))
  {
    match Directory(platformDir)
    case None => None
    case Some(dir) =>
      var path := Join(dir, file);
      Some(match read(path)
           case None => Err(Io)
           case Some(text) =>
             match parse(text)
             case None => Err(Deserialize(Syntax))
             case Some(document) =>
               match FromToml(document, shell)
               case Err(e) => Err(Deserialize(e))
               case Ok(config) => Ok(config))
  }

  /** The empty document resolves to the default configuration. */
  lemma EmptyDocumentIsDefault(shell: Option<string>)
    ensures FromToml(Table(map[]), shell) == Ok(Default(shell))
  {
  }

  /** `command = "/bin/sh"` becomes the one-element command `["/bin/sh"]`,
      and every other field keeps its default. */
  lemma StringCommandCoerced(command: string, shell: Option<string>)
    ensures FromToml(Table(map["general" := Table(map["command" := String(command)])]), shell)
      == Ok(Config(GeneralConfig([command], DefaultFont(), DefaultTheme()), DefaultWindow()))
  {
    var general := Table(map["command" := String(command)]);
    assert GeneralFromToml(general, shell) == Ok(GeneralConfig([command], DefaultFont(), DefaultTheme()));
  }

  /** Keys the older `Config` does not declare are ignored, even at the top. */
  lemma UnknownTopLevelKeyIgnored(entries: map<string, Value>, key: string, extra: Value, shell: Option<string>)
    requires key !in {"general", "window"}
    ensures FromToml(Table(entries[key := extra]), shell) == FromToml(Table(entries), shell)
  {
    var e := entries[key := extra];
    assert ("general" in e <==> "general" in entries) && ("window" in e <==> "window" in entries);
    assert "general" in e ==> e["general"] == entries["general"];
    assert "window" in e ==> e["window"] == entries["window"];
  }

  /** A document that gives only `window.size.width` keeps every other default. */
  lemma OnlyWidthGiven(width: u32, shell: Option<string>)
    ensures FromToml(Table(map["window" := Table(map["size" := Table(map["width" := Integer(width)])])]), shell)
      == Ok(Config(DefaultGeneral(shell),
                   WindowConfig(DefaultTitle(), DefaultScrollBar(), WindowSizeConfig(width, DefaultHeight()), DefaultPadding())))
  {
    var size := Table(map["width" := Integer(width)]);
    assert SizeFromToml(size) == Ok(WindowSizeConfig(width, DefaultHeight()));
    var window := Table(map["size" := size]);
    assert WindowFromToml(window) == Ok(WindowConfig(DefaultTitle(), DefaultScrollBar(), WindowSizeConfig(width, DefaultHeight()), DefaultPadding()));
  }
}
