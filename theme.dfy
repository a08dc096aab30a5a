/** The validated colour theme (src/theme/mod.rs): a record whose three
    fields are checked while it is deserialised, its built-in default, and
    `Theme::load`. */
module Theme {
  import opened Wrappers
  import opened Toml
  import opened Text
  import opened ColorValidation

  datatype Theme = Theme(foreground: string, background: string, palette: seq<string>)

  /** src/theme/error.rs */
  datatype Error = Io | Deserialize(cause: DeError)

  /** What the field validators guarantee of every deserialised theme. */
  predicate Valid(t: Theme) {
    IsHexColor(t.foreground) && IsHexColor(t.background) && ValidPalette(t.palette)
  }

  const DefaultForeground: string := "#ffffff"
  const DefaultBackground: string := "#1e1e1e"
  const DefaultPalette: seq<string> := [
    "#241F31", "#C01C28", "#2EC27E", "#F5C211", "#1E78E4", "#9841BB", "#0AB9DC", "#C0BFBC",
    "#5E5C64", "#ED333B", "#57E389", "#F8E45C", "#51A1FF", "#C061CB", "#4FD2FD", "#F6F5F4"
  ]

  function Default(): Theme {
    Theme(DefaultForeground, DefaultBackground, DefaultPalette)
  }

  /** The built-in theme passes both validators, which is what makes the
      `unwrap` calls of `apply_theme` safe for it. */
  lemma DefaultIsValid()
    ensures Valid(Default())
    ensures Color(String(DefaultForeground)) == Ok(DefaultForeground)
    ensures Color(String(DefaultBackground)) == Ok(DefaultBackground)
    ensures DecodePalette(StringArrayValue(DefaultPalette)) == Ok(DefaultPalette)
  {
    assert IsHexColor(DefaultForeground);
    assert IsHexColor(DefaultBackground);
    forall i | 0 <= i < |DefaultPalette|
      ensures IsHexColor(DefaultPalette[i])
    {
      var c := DefaultPalette[i];
      assert |c| == 7 && c[0] == '#';
      assert forall j :: 1 <= j < 7 ==> IsHexDigit(c[j]);
    }
    StringArrayRoundTrip(DefaultPalette);
  }

  /** `#[derive(Deserialize)]` with the validators attached to every field.
      All three fields are required; keys the struct does not declare are
      ignored. */
  function FromToml(v: Value): (r: Result<Theme, DeError>)
    ensures r.Ok? ==> Valid(r.value)
    ensures r.Ok? <==>
      && v.Table?
      && "foreground" in v.entries && Color(v.entries["foreground"]).Ok?
      && "background" in v.entries && Color(v.entries["background"]).Ok?
      && "palette" in v.entries && DecodePalette(v.entries["palette"]).Ok?
    ensures r.Ok? ==>
      && v.entries["foreground"] == String(r.value.foreground)
      && v.entries["background"] == String(r.value.background)
      && DecodeStringArray(v.entries["palette"]) == Ok(r.value.palette)
  {
    if !v.Table? then Err(InvalidType("struct Theme"))
    else
      var foreground :- Required(v.entries, "foreground", Color);
      var background :- Required(v.entries, "background", Color);
      var palette :- Required(v.entries, "palette", DecodePalette);
      Ok(Theme(foreground, background, palette))
  }

  /** `Theme::load`: the file is read, then parsed and deserialised; a read
      failure is an `Io` error and everything after it a `Deserialize` error. */
  function Load(read: Path -> Option<string>, parse: string -> Option<Value>, path: Path): (r: Result<Theme, Error>)
    ensures r == Err(Io) <==> read(path).None?
    ensures r.Ok? ==> Valid(r.value)
    ensures r.Ok? <==>
      read(path).Some? && parse(read(path).value).Some? && FromToml(parse(read(path).value).value).Ok?
    ensures r.Ok? ==> Ok(r.value) == FromToml(parse(read(path).value).value)
  {
    match read(path)
    case None => Err(Io)
    case Some(text) =>
      match parse(text)
      case None => Err(Deserialize(Syntax))
      case Some(document) =>
        match FromToml(document)
        case Err(e) => Err(Deserialize(e))
        case Ok(theme) => Ok(theme)
  }

  /** `#[derive(Serialize)]`: the theme written back as a TOML table. */
  function ToValue(t: Theme): Value {
    Table(map[
      "foreground" := String(t.foreground),
      "background" := String(t.background),
      "palette" := StringArrayValue(t.palette)])
  }

  /** Writing a theme out and reading it back gives the same theme exactly
      when the theme is valid. */
  lemma RoundTrip(t: Theme)
    ensures FromToml(ToValue(t)).Ok? <==> Valid(t)
    ensures FromToml(ToValue(t)).Ok? ==> FromToml(ToValue(t)).value == t
  {
    StringArrayRoundTrip(t.palette);
    var e := ToValue(t).entries;
    assert e["foreground"] == String(t.foreground);
    assert e["background"] == String(t.background);
    assert DecodeStringArray(e["palette"]) == Ok(t.palette);
  }

  /** A theme file whose palette has one entry that is not a hex colour
      yields no `Theme` at all, only a `Deserialize` error. */
  lemma OneBadPaletteEntryYieldsNoTheme(read: Path -> Option<string>, parse: string -> Option<Value>, path: Path, t: Theme, k: nat, bad: string)
    requires Valid(t) && k < |t.palette| && !IsHexColor(bad)
    requires read(path).Some? && parse(read(path).value) == Some(ToValue(t.(palette := t.palette[k := bad])))
    ensures Load(read, parse, path).Err? && Load(read, parse, path).error.Deserialize?
  {
    var broken := t.(palette := t.palette[k := bad]);
    assert broken.palette[k] == bad;
    assert !Valid(broken);
    RoundTrip(broken);
    assert FromToml(parse(read(path).value).value).Err?;
  }

  /** A palette of fifteen valid colours is refused for its size. */
  lemma FifteenEntryPaletteRefused(t: Theme)
    requires Valid(t)
    ensures FromToml(ToValue(t.(palette := t.palette[..15]))) == Err(InvalidPaletteSize(15))
  {
    var short := t.(palette := t.palette[..15]);
    ShortPaletteRefused(short.palette);
    var e := ToValue(short).entries;
    assert Color(e["foreground"]) == Ok(t.foreground);
    assert Color(e["background"]) == Ok(t.background);
  }
}
