/** Parsed TOML documents and the serde decoding rules the configuration
    and theme structs rely on. The TOML grammar itself is not modelled: a
    document reaches the model already parsed into a `Value`. */
module Toml {
  import opened Wrappers

  /** A TOML value, as the `toml` crate hands it to serde. */
  datatype Value =
    | String(s: string)
    | Integer(n: int)
    | Float(x: real)
    | Boolean(b: bool)
    | Datetime(text: string)
    | Array(items: seq<Value>)
    | Table(entries: map<string, Value>)

  /** Why deserialising a document failed. */
  datatype DeError =
    | Syntax                           // the text is not a TOML document
    | InvalidType(expected: string)    // a value of the wrong kind
    | InvalidValue(expected: string)   // an integer outside the target's range
    | MissingField(field: string)      // a field without a default is absent
    | UnknownField                     // a key a `deny_unknown_fields` struct does not declare
    | InvalidHexColor(color: string)   // the `color` validator rejected a string
    | InvalidPaletteSize(provided: nat) // the `color_palette` validator saw the wrong count
    | Custom(message: string)          // any other `serde::de::Error::custom` message

  /** Rust's `u32`. */
  type u32 = x: int | 0 <= x < 0x1_0000_0000

  function DecodeString(v: Value): (r: Result<string, DeError>)
    ensures r.Ok? <==> v.String?
    ensures r.Ok? ==> v == String(r.value)
  {
    if v.String? then Ok(v.s) else Err(InvalidType("a string"))
  }

  function DecodeBool(v: Value): (r: Result<bool, DeError>)
    ensures r.Ok? <==> v.Boolean?
    ensures r.Ok? ==> v == Boolean(r.value)
  {
    if v.Boolean? then Ok(v.b) else Err(InvalidType("a boolean"))
  }

  /** A TOML integer becomes a `u32` only when it is in range. */
  function DecodeU32(v: Value): (r: Result<u32, DeError>)
    ensures r.Ok? <==> v.Integer? && 0 <= v.n < 0x1_0000_0000
    ensures r.Ok? ==> v == Integer(r.value)
  {
    if !v.Integer? then Err(InvalidType("u32"))
    else if 0 <= v.n < 0x1_0000_0000 then Ok(v.n)
    else Err(InvalidValue("u32"))
  }

  /** TOML has no null, so a present `Option<String>` field is `Some`. */
  function DecodeOptionString(v: Value): (r: Result<Option<string>, DeError>)
    ensures r.Ok? <==> v.String?
    ensures r.Ok? ==> r.value.Some? && v == String(r.value.value)
  {
    if v.String? then Ok(Some(v.s)) else Err(InvalidType("a string"))
  }

  /** The strings of `items`, in order, when every item is a string. */
  function StringsOf(items: seq<Value>): (r: Option<seq<string>>)
    ensures r.Some? <==> forall i :: 0 <= i < |items| ==> items[i].String?
    ensures r.Some? ==> |r.value| == |items|
    ensures r.Some? ==> forall i :: 0 <= i < |items| ==> items[i] == String(r.value[i])
  {
    if items == [] then Some([])
    else if !items[0].String? then None
    else
      match StringsOf(items[1..])
      case None => None
      case Some(rest) => Some([items[0].s] + rest)
  }

  /** serde's `Vec<String>`: an array whose every element is a string. */
  function DecodeStringArray(v: Value): (r: Result<seq<string>, DeError>)
    ensures r.Ok? <==> v.Array? && forall i :: 0 <= i < |v.items| ==> v.items[i].String?
    ensures r.Ok? ==> |r.value| == |v.items|
    ensures r.Ok? ==> forall i :: 0 <= i < |v.items| ==> v.items[i] == String(r.value[i])
  {
    if !v.Array? then Err(InvalidType("a sequence"))
    else
      match StringsOf(v.items)
      case None => Err(InvalidType("a string"))
      case Some(xs) => Ok(xs)
  }

  /** How a `Vec<String>` is written back into TOML. */
  function StringArrayValue(xs: seq<string>): Value {
    Array(seq(|xs|, i requires 0 <= i < |xs| => String(xs[i])))
  }

  lemma StringArrayRoundTrip(xs: seq<string>)
    ensures DecodeStringArray(StringArrayValue(xs)) == Ok(xs)
  {
    var r := DecodeStringArray(StringArrayValue(xs));
    assert r.Ok?;
    assert r.value == xs;
  }

  /** A field with a `#[serde(default = ...)]`: absent means the default. */
  function Field<T>(t: map<string, Value>, key: string, decode: Value -> Result<T, DeError>, default: T): Result<T, DeError> {
    if key in t then decode(t[key]) else Ok(default)
  }

  /** A field without a default: absent is an error. */
  function Required<T>(t: map<string, Value>, key: string, decode: Value -> Result<T, DeError>): Result<T, DeError> {
    if key in t then decode(t[key]) else Err(MissingField(key))
  }

  /** The field `key` of `t`, when present, decodes. */
  predicate FieldDecodes<T>(t: map<string, Value>, key: string, decode: Value -> Result<T, DeError>) {
    key in t ==> decode(t[key]).Ok?
  }

  /** `x` is what the field `key` of `t` decodes to, or `default` when `t` omits it. */
  predicate FieldIs<T(==)>(t: map<string, Value>, key: string, decode: Value -> Result<T, DeError>, default: T, x: T) {
    if key in t then decode(t[key]) == Ok(x) else x == default
  }
}
