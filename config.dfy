/** The top-level configuration (src/config/mod.rs): two sections, each
    defaulted as a whole when absent, and a strict set of top-level keys.
    src/config/error.rs is not part of this model; its error type is taken
    to have the same two cases as the theme's, which is what the `?`
    conversions in `load` require. */
module Config {
  import opened Wrappers
  import opened Toml
  import opened Text
  import ConfigGeneral
  import ConfigWindow

  datatype Config = Config(general: ConfigGeneral.General, window: ConfigWindow.Window)

  datatype Error = Io | Deserialize(cause: DeError)

  /** The keys `Config` declares; `deny_unknown_fields` refuses all others. */
  const Sections: set<string> := {"general", "window"}

  function Default(): Config {
    Config(ConfigGeneral.Default(), ConfigWindow.Default())
  }

  function FromToml(v: Value): (r: Result<Config, DeError>)
    ensures r.Ok? <==>
      && v.Table?
      && v.entries.Keys <= Sections
      && FieldDecodes(v.entries, "general", ConfigGeneral.FromToml)
      && FieldDecodes(v.entries, "window", ConfigWindow.FromToml)
    ensures r.Ok? ==>
      && FieldIs(v.entries, "general", ConfigGeneral.FromToml, ConfigGeneral.Default(), r.value.general)
      && FieldIs(v.entries, "window", ConfigWindow.FromToml, ConfigWindow.Default(), r.value.window)
  {
    if !v.Table? then Err(InvalidType("struct Config"))
    else if !(v.entries.Keys <= Sections) then Err(UnknownField)
    else
      var general :- Field(v.entries, "general", ConfigGeneral.FromToml, ConfigGeneral.Default());
      var window :- Field(v.entries, "window", ConfigWindow.FromToml, ConfigWindow.Default());
      Ok(Config(general, window))
  }

  /** `Config::load`: an unreadable file is an `Io` error; text that does not
      parse or does not fit the schema is a `Deserialize` error; otherwise
      the fully defaulted configuration. */
  function Load(read: Path -> Option<string>, parse: string -> Option<Value>, path: Path): (r: Result<Config, Error>)
    ensures r == Err(Io) <==> read(path).None?
    ensures r.Ok? <==>
      read(path).Some? && parse(read(path).value).Some? && FromToml(parse(read(path).value).value).Ok?
    ensures r.Ok? ==> Ok(r.value) == FromToml(parse(read(path).value).value)
  {
    match read(path)
    case None => Err(Io)
    case Some(text) =>
      match parse(text)
      case None => Err(Deserialize(Syntax))
      case Some(document) =>
        match FromToml(document)
        case Err(e) => Err(Deserialize(e))
        case Ok(config) => Ok(config)
  }

  /** `#[derive(Serialize)]`. */
  function ToValue(c: Config): Value {
    Table(map["general" := ConfigGeneral.ToValue(c.general), "window" := ConfigWindow.ToValue(c.window)])
  }

  /** Writing a configuration out and reading it back loses nothing. */
  lemma RoundTrip(c: Config)
    ensures FromToml(ToValue(c)) == Ok(c)
  {
    ConfigGeneral.RoundTrip(c.general);
    ConfigWindow.RoundTrip(c.window);
    assert ToValue(c).entries.Keys == Sections;
  }

  /** The empty document resolves to `Config::default()`. */
  lemma EmptyDocumentIsDefault()
    ensures FromToml(Table(map[])) == Ok(Default())
  {
  }

  /** A top-level key other than `general` and `window` makes the whole
      document fail, whatever else it holds. */
  lemma UnknownTopLevelKeyRefused(entries: map<string, Value>, key: string)
    requires key in entries && key !in Sections
    ensures FromToml(Table(entries)).Err?
  {
  }

  /** The cascade is nested: a document that gives only `window.size.width`
      gets the default height, padding, title, scroll bar and general section. */
  lemma OnlyWidthGiven(width: u32)
    ensures FromToml(Table(map["window" := Table(map["size" := Table(map["width" := Integer(width)])])]))
      == Ok(Config(ConfigGeneral.Default(),
                   ConfigWindow.Window(ConfigWindow.DefaultTitle(), ConfigWindow.DefaultScrollBar(),
                                       ConfigWindow.Size(width, ConfigWindow.DefaultHeight()),
                                       ConfigWindow.DefaultPadding())))
  {
    ConfigWindow.OnlyWidthGiven(width);
  }

  /** In this variant `command` is a plain `Vec<String>`: a single string is
      a type error, not a one-element command. */
  lemma StringCommandRefused(command: string)
    ensures FromToml(Table(map["general" := Table(map["command" := String(command)])])).Err?
  {
    var general := Table(map["command" := String(command)]);
    assert ConfigGeneral.FromToml(general).Err?;
  }

  /** A command given as an array is kept as given, even when it is empty:
      nothing here demands a non-empty command. */
  lemma ArrayCommandKept(command: seq<string>)
    ensures FromToml(Table(map["general" := Table(map["command" := StringArrayValue(command)])]))
      == Ok(Config(ConfigGeneral.General(command, ConfigGeneral.DefaultFont(), ConfigGeneral.DefaultTheme()),
                   ConfigWindow.Default()))
  {
    StringArrayRoundTrip(command);
    var general := Table(map["command" := StringArrayValue(command)]);
    assert ConfigGeneral.FromToml(general) == Ok(ConfigGeneral.General(command, ConfigGeneral.DefaultFont(), ConfigGeneral.DefaultTheme()));
  }
}
