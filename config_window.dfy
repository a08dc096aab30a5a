/** The `[window]` section of the configuration (src/config/window.rs),
    with its nested `size` and `padding` tables; every field at every level
    has its own default. */
module ConfigWindow {
  import opened Wrappers
  import opened Toml

  datatype Size = Size(width: u32, height: u32)
  datatype Padding = Padding(horizontal: u32, vertical: u32)
  datatype Window = Window(title: string, scrollBar: bool, size: Size, padding: Padding)

  function DefaultWidth(): u32 { 1200 }
  function DefaultHeight(): u32 { 800 }
  function DefaultSize(): Size { Size(DefaultWidth(), DefaultHeight()) }

  function DefaultHorizontal(): u32 { 8 }
  function DefaultVertical(): u32 { 8 }
  function DefaultPadding(): Padding { Padding(DefaultHorizontal(), DefaultVertical()) }

  function DefaultTitle(): string { "Galactic" }
  function DefaultScrollBar(): bool { true }

  function Default(): Window {
    Window(DefaultTitle(), DefaultScrollBar(), DefaultSize(), DefaultPadding())
  }

  /** The documented defaults. */
  lemma DefaultValues()
    ensures Default().title == "Galactic" && Default().scrollBar
    ensures Default().size == Size(1200, 800)
    ensures Default().padding == Padding(8, 8)
  {
  }

  function SizeFromToml(v: Value): (r: Result<Size, DeError>)
    ensures r.Ok? <==>
      v.Table? && FieldDecodes(v.entries, "width", DecodeU32) && FieldDecodes(v.entries, "height", DecodeU32)
    ensures r.Ok? ==>
      && FieldIs(v.entries, "width", DecodeU32, DefaultWidth(), r.value.width)
      && FieldIs(v.entries, "height", DecodeU32, DefaultHeight(), r.value.height)
  {
    if !v.Table? then Err(InvalidType("struct Size"))
    else
      var width :- Field(v.entries, "width", DecodeU32, DefaultWidth());
      var height :- Field(v.entries, "height", DecodeU32, DefaultHeight());
      Ok(Size(width, height))
  }

  function PaddingFromToml(v: Value): (r: Result<Padding, DeError>)
    ensures r.Ok? <==>
      v.Table? && FieldDecodes(v.entries, "horizontal", DecodeU32) && FieldDecodes(v.entries, "vertical", DecodeU32)
    ensures r.Ok? ==>
      && FieldIs(v.entries, "horizontal", DecodeU32, DefaultHorizontal(), r.value.horizontal)
      && FieldIs(v.entries, "vertical", DecodeU32, DefaultVertical(), r.value.vertical)
  {
    if !v.Table? then Err(InvalidType("struct Padding"))
    else
      var horizontal :- Field(v.entries, "horizontal", DecodeU32, DefaultHorizontal());
      var vertical :- Field(v.entries, "vertical", DecodeU32, DefaultVertical());
      Ok(Padding(horizontal, vertical))
  }

  /** `#[derive(Deserialize)]` for `Window`: the nested tables cascade, so a
      section that gives only part of `size` still gets the other defaults.
      Unknown keys are ignored at this level. */
  function FromToml(v: Value): (r: Result<Window, DeError>)
    ensures r.Ok? <==>
      && v.Table?
      && FieldDecodes(v.entries, "title", DecodeString)
      && FieldDecodes(v.entries, "scroll_bar", DecodeBool)
      && FieldDecodes(v.entries, "size", SizeFromToml)
      && FieldDecodes(v.entries, "padding", PaddingFromToml)
    ensures r.Ok? ==>
      && FieldIs(v.entries, "title", DecodeString, DefaultTitle(), r.value.title)
      && FieldIs(v.entries, "scroll_bar", DecodeBool, DefaultScrollBar(), r.value.scrollBar)
      && FieldIs(v.entries, "size", SizeFromToml, DefaultSize(), r.value.size)
      && FieldIs(v.entries, "padding", PaddingFromToml, DefaultPadding(), r.value.padding)
  {
    if !v.Table? then Err(InvalidType("struct Window"))
    else
      var title :- Field(v.entries, "title", DecodeString, DefaultTitle());
      var scrollBar :- Field(v.entries, "scroll_bar", DecodeBool, DefaultScrollBar());
      var size :- Field(v.entries, "size", SizeFromToml, DefaultSize());
      var padding :- Field(v.entries, "padding", PaddingFromToml, DefaultPadding());
      Ok(Window(title, scrollBar, size, padding))
  }

  /** `#[derive(Serialize)]` for the section and its nested tables. */
  function ToValue(w: Window): Value {
    Table(map[
      "title" := String(w.title),
      "scroll_bar" := Boolean(w.scrollBar),
      "size" := Table(map["width" := Integer(w.size.width), "height" := Integer(w.size.height)]),
      "padding" := Table(map["horizontal" := Integer(w.padding.horizontal), "vertical" := Integer(w.padding.vertical)])])
  }

  lemma RoundTrip(w: Window)
    ensures FromToml(ToValue(w)) == Ok(w)
  {
    var e := ToValue(w).entries;
    assert SizeFromToml(e["size"]) == Ok(w.size);
    assert PaddingFromToml(e["padding"]) == Ok(w.padding);
  }

  /** A section that gives only `size.width` keeps every other default. */
  lemma OnlyWidthGiven(width: u32)
    ensures FromToml(Table(map["size" := Table(map["width" := Integer(width)])]))
      == Ok(Window(DefaultTitle(), DefaultScrollBar(), Size(width, DefaultHeight()), DefaultPadding()))
  {
    var size := Table(map["width" := Integer(width)]);
    assert SizeFromToml(size) == Ok(Size(width, DefaultHeight()));
  }

  /** Unlike the top level, this section accepts keys it does not declare
      and ignores them. */
  lemma UnknownKeysIgnored(entries: map<string, Value>, key: string, extra: Value)
    requires key !in {"title", "scroll_bar", "size", "padding"}
    ensures FromToml(Table(entries[key := extra])) == FromToml(Table(entries))
  {
    var e := entries[key := extra];
    assert forall k :: k in {"title", "scroll_bar", "size", "padding"} ==> (k in e <==> k in entries);
    assert forall k :: k in {"title", "scroll_bar", "size", "padding"} && k in e ==> e[k] == entries[k];
  }
}
