/** The `color` and `color_palette` field validators of the theme
    (src/theme/deserialize.rs). The pattern `^#[0-9a-fA-F]{6}$` is given
    twice: declaratively (`IsHexColor`) and as the left-to-right matcher a
    regex engine runs (`MatchFrom`); the two are proved to agree. */
module ColorValidation {
  import opened Wrappers
  import opened Toml

  /** `EXPECTED_PALETTE_SIZE`. */
  const PaletteSize: nat := 16

  predicate IsHexDigit(c: char) {
    '0' <= c <= '9' || 'a' <= c <= 'f' || 'A' <= c <= 'F'
  }

  /** The language of `^#[0-9a-fA-F]{6}$`: seven characters, a `#` and six hex digits. */
  predicate IsHexColor(s: string) {
    |s| == 7 && s[0] == '#' && forall i :: 1 <= i < 7 ==> IsHexDigit(s[i])
  }

  /** The pattern run as an automaton over `s`; `matched` counts the pattern
      characters consumed so far. Both anchors are explicit: matching starts
      at the first character and nothing may follow the sixth digit. */
  function MatchFrom(s: string, matched: nat): bool
    requires matched <= 7
    decreases |s|
  {
    if s == [] then matched == 7
    else if matched == 0 then s[0] == '#' && MatchFrom(s[1..], 1)
    else if matched < 7 then IsHexDigit(s[0]) && MatchFrom(s[1..], matched + 1)
    else false
  }

  /** Once the `#` is consumed, the matcher accepts exactly the remaining hex digits. */
  lemma {:induction false} MatchFromDigits(s: string, matched: nat)
    requires 1 <= matched <= 7
    ensures MatchFrom(s, matched) <==> |s| == 7 - matched && forall i :: 0 <= i < |s| ==> IsHexDigit(s[i])
  {
    if s != [] && matched < 7 {
      MatchFromDigits(s[1..], matched + 1);
      assert forall i :: 1 <= i < |s| ==> s[i] == s[1..][i - 1];
    }
  }

  /** The matcher accepts exactly the hex colours. */
  lemma {:induction false} MatchFromHexColor(s: string)
    ensures MatchFrom(s, 0) <==> IsHexColor(s)
  {
    if s != [] {
      MatchFromDigits(s[1..], 1);
      assert forall i :: 1 <= i < |s| ==> s[i] == s[1..][i - 1];
    }
  }

  /** `regex.is_match(s)` for the hex-colour pattern. */
  function IsMatch(s: string): (b: bool)
    ensures b <==> IsHexColor(s)
  {
    MatchFromHexColor(s);
    MatchFrom(s, 0)
  }

  /** The `color` deserializer: the value must be a string and match the
      pattern; it is then returned unchanged (case is kept). */
  function Color(v: Value): (r: Result<string, DeError>)
    ensures r.Ok? <==> v.String? && IsHexColor(v.s)
    ensures r.Ok? ==> v == String(r.value)
    ensures v.String? && !IsHexColor(v.s) ==> r == Err(InvalidHexColor(v.s))
  {
    var color :- DecodeString(v);
    if !IsMatch(color) then Err(InvalidHexColor(color)) else Ok(color)
  }

  predicate ValidPalette(colors: seq<string>) {
    |colors| == PaletteSize && forall i :: 0 <= i < |colors| ==> IsHexColor(colors[i])
  }

  /** The index of the first entry that is not a hex colour, or `|colors|`. */
  function FirstInvalid(colors: seq<string>): (k: nat)
    ensures k <= |colors|
    ensures forall j :: 0 <= j < k ==> IsHexColor(colors[j])
    ensures k < |colors| ==> !IsHexColor(colors[k])
  {
    if colors == [] || !IsHexColor(colors[0]) then 0
    else 1 + FirstInvalid(colors[1..])
  }

  /** What `color_palette` decides about an already decoded list: the count
      is checked first, then the entries in order, and the first bad entry
      is the one reported. */
  function CheckPalette(colors: seq<string>): (r: Result<seq<string>, DeError>)
    ensures r.Ok? <==> ValidPalette(colors)
    ensures r.Ok? ==> r.value == colors
    ensures |colors| != PaletteSize ==> r == Err(InvalidPaletteSize(|colors|))
    ensures |colors| == PaletteSize && r.Err? ==>
      exists k :: 0 <= k < |colors| && !IsHexColor(colors[k]) && r == Err(InvalidHexColor(colors[k]))
        && forall j :: 0 <= j < k ==> IsHexColor(colors[j])
  {
    if |colors| != PaletteSize then Err(InvalidPaletteSize(|colors|))
    else
      var k := FirstInvalid(colors);
      if k < |colors| then Err(InvalidHexColor(colors[k])) else Ok(colors)
  }

  /** The whole `color_palette` deserializer: `Vec<String>` decoding, then `CheckPalette`. */
  function DecodePalette(v: Value): Result<seq<string>, DeError> {
    var colors :- DecodeStringArray(v);
    CheckPalette(colors)
  }

  /** `color_palette` as the source runs it: the length check, then a loop
      that returns on the first entry the pattern rejects. */
  method ColorPalette(v: Value) returns (r: Result<seq<string>, DeError>)
    ensures r == DecodePalette(v)
    ensures r.Ok? <==> v.Array? && DecodeStringArray(v).Ok? && ValidPalette(DecodeStringArray(v).value)
  {
    var decoded := DecodeStringArray(v);
    if decoded.Err? {
      return Err(decoded.error);
    }
    var colors := decoded.value;
    if |colors| != PaletteSize {
      return Err(InvalidPaletteSize(|colors|));
    }
    for i := 0 to |colors|
      invariant forall j :: 0 <= j < i ==> IsHexColor(colors[j])
    {
      if !IsMatch(colors[i]) {
        return Err(InvalidHexColor(colors[i]));
      }
    }
    return Ok(colors);
  }

  /** The size check comes before any entry is looked at: fifteen valid
      colours are still refused, and only for their count. */
  lemma ShortPaletteRefused(colors: seq<string>)
    requires |colors| == 15
    requires forall i :: 0 <= i < |colors| ==> IsHexColor(colors[i])
    ensures DecodePalette(StringArrayValue(colors)) == Err(InvalidPaletteSize(15))
  {
    StringArrayRoundTrip(colors);
  }

  /** One bad entry in a sixteen-entry list is enough to refuse it. */
  lemma OneBadEntryRefused(colors: seq<string>, k: nat)
    requires |colors| == PaletteSize && k < |colors|
    requires !IsHexColor(colors[k])
    ensures DecodePalette(StringArrayValue(colors)).Err?
  {
    StringArrayRoundTrip(colors);
  }
}
