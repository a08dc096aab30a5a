/** The older theme (src/theme.rs): the same record and built-in default as
    the newer one, but with no validator on any field, and files found under
    the `themes` directory of the older configuration directory. */
module LegacyTheme {
  import opened Wrappers
  import opened Toml
  import opened Text
  import LegacyConfig
  import Newer = Theme

  datatype Theme = Theme(foreground: string, background: string, palette: seq<string>)

  /** `Theme::default()` of the older theme, with its own literals. */
  function Default(): Theme {
    Theme("#ffffff", "#1e1e1e", [
      "#241F31", "#C01C28", "#2EC27E", "#F5C211", "#1E78E4", "#9841BB", "#0AB9DC", "#C0BFBC",
      "#5E5C64", "#ED333B", "#57E389", "#F8E45C", "#51A1FF", "#C061CB", "#4FD2FD", "#F6F5F4"
    ])
  }

  /** The older default is the newer default, field for field, with a
      sixteen-entry palette in the same order; so it would also pass the
      newer colour validators. */
  lemma DefaultMatchesNewer()
    ensures Default().foreground == Newer.Default().foreground
    ensures Default().background == Newer.Default().background
    ensures Default().palette == Newer.Default().palette && |Default().palette| == 16
    ensures Newer.Valid(Newer.Theme(Default().foreground, Default().background, Default().palette))
  {
    Newer.DefaultIsValid();
  }

  /** `#[derive(Deserialize)]`: three required fields of the right types,
      and nothing more is checked. */
  function FromToml(v: Value): (r: Result<Theme, DeError>)
    ensures r.Ok? <==>
      && v.Table?
      && "foreground" in v.entries && v.entries["foreground"].String?
      && "background" in v.entries && v.entries["background"].String?
      && "palette" in v.entries && DecodeStringArray(v.entries["palette"]).Ok?
    ensures r.Ok? ==>
      && v.entries["foreground"] == String(r.value.foreground)
      && v.entries["background"] == String(r.value.background)
      && DecodeStringArray(v.entries["palette"]) == Ok(r.value.palette)
  {
    if !v.Table? then Err(InvalidType("struct Theme"))
    else
      var foreground :- Required(v.entries, "foreground", DecodeString);
      var background :- Required(v.entries, "background", DecodeString);
      var palette :- Required(v.entries, "palette", DecodeStringArray);
      Ok(Theme(foreground, background, palette))
  }

  /** Any strings are accepted: a three-entry palette of colour names, or
      foreground text that is no colour at all, deserialise as given. */
  lemma AnyStringsAccepted(foreground: string, background: string, palette: seq<string>)
    ensures FromToml(Table(map[
      "foreground" := String(foreground),
      "background" := String(background),
      "palette" := StringArrayValue(palette)])) == Ok(Theme(foreground, background, palette))
  {
    StringArrayRoundTrip(palette);
  }

  /** `Theme::directory()`: the older configuration directory with `themes` appended. */
  function Directory(platformDir: Option<Path>): (r: Option<Path>)
    ensures r.Some? <==> platformDir.Some?
    ensures r.Some? ==> r.value == Join(Join(platformDir.value, "galactic"), "themes")
  {
    match LegacyConfig.Directory(platformDir)
    case None => None
    case Some(dir) => Some(Join(dir, "themes"))
  }

  /** `Theme::load_toml(p)`: reads `directory()/p`; a read or parse error is
      passed on. The outer None is the panic of `Directory`. */
  function LoadToml(platformDir: Option<Path>, read: Path -> Option<string>, parse: string -> Option<Value>,
                    file: string): (r: Option<Result<Theme, LegacyConfig.Error>>)
    ensures r.Some? <==> platformDir.Some?
    ensures r.Some? ==> var path := Join(Directory(platformDir).value, file);
      && (r.value == Err(LegacyConfig.Io) <==> read(path).None?)
      && (r.value.Ok? <==> read(path).Some? && parse(read(path).value).Some?
                           && FromToml(parse(read(path).value).value).Ok?)
      && (r.value.Ok? ==> Ok(r.value.value) == FromToml(parse(read(path).value).value))
      && (read(path).Some? && r.value.Err? ==> r.value.error.Deserialize?)
      && (read(path).Some? && parse(read(path).value).Some? && FromToml(parse(read(path).value).value).Err? ==>
            r.value == Err(LegacyConfig.Deserialize(FromToml(parse(read(path).value).value).error)))
  {
    match Directory(platformDir)
    case None => None
    case Some(dir) =>
      var path := Join(dir, file);
      Some(match read(path)
           case None => Err(LegacyConfig.Io)
           case Some(text) =>
             match parse(text)
             case None => Err(LegacyConfig.Deserialize(Syntax))
             case Some(document) =>
               match FromToml(document)
               case Err(e) => Err(LegacyConfig.Deserialize(e))
               case Ok(theme) => Ok(theme))
  }
}
