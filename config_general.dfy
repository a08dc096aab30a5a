/** The `[general]` section of the configuration (src/config/general.rs):
    every field has its own default. */
module ConfigGeneral {
  import opened Wrappers
  import opened Toml

  datatype General = General(command: seq<string>, font: string, theme: Option<string>)

  function DefaultCommand(): seq<string> {
    ["/usr/bin/bash"]
  }

  function DefaultFont(): string {
    "Monospace 12"
  }

  function DefaultTheme(): Option<string> {
    None
  }

  function Default(): General {
    General(DefaultCommand(), DefaultFont(), DefaultTheme())
  }

  /** The documented defaults. */
  lemma DefaultValues()
    ensures Default().command == ["/usr/bin/bash"] && |Default().command| == 1
    ensures Default().font == "Monospace 12"
    ensures Default().theme == None
  {
  }

  /** `#[derive(Deserialize)]`: each field is decoded when present and takes
      its own default when absent, independently of the others. `command`
      must be an array of strings here (no coercion of a single string), and
      unknown keys are ignored. */
  function FromToml(v: Value): (r: Result<General, DeError>)
    ensures r.Ok? <==>
      && v.Table?
      && FieldDecodes(v.entries, "command", DecodeStringArray)
      && FieldDecodes(v.entries, "font", DecodeString)
      && FieldDecodes(v.entries, "theme", DecodeOptionString)
    ensures r.Ok? ==>
      && FieldIs(v.entries, "command", DecodeStringArray, DefaultCommand(), r.value.command)
      && FieldIs(v.entries, "font", DecodeString, DefaultFont(), r.value.font)
      && FieldIs(v.entries, "theme", DecodeOptionString, DefaultTheme(), r.value.theme)
  {
    if !v.Table? then Err(InvalidType("struct General"))
    else
      var command :- Field(v.entries, "command", DecodeStringArray, DefaultCommand());
      var font :- Field(v.entries, "font", DecodeString, DefaultFont());
      var theme :- Field(v.entries, "theme", DecodeOptionString, DefaultTheme());
      Ok(General(command, font, theme))
  }

  /** `#[derive(Serialize)]`; a theme of `None` is left out of the table. */
  function ToValue(g: General): Value {
    var entries := map["command" := StringArrayValue(g.command), "font" := String(g.font)];
    Table(if g.theme.Some? then entries["theme" := String(g.theme.value)] else entries)
  }

  lemma RoundTrip(g: General)
    ensures FromToml(ToValue(g)) == Ok(g)
  {
    StringArrayRoundTrip(g.command);
    var e := ToValue(g).entries;
    assert DecodeStringArray(e["command"]) == Ok(g.command);
    assert DecodeString(e["font"]) == Ok(g.font);
  }

  /** The empty section is the default section. */
  lemma EmptySectionIsDefault()
    ensures FromToml(Table(map[])) == Ok(Default())
  {
  }
}
